# void-visualizer, modelled in Dafny

void-visualizer is a browser music visualizer. Each animation frame, the audio analyser's byte spectrum is reduced to three levels: bass, mid and treble, each in [0, 1]. Each level also has an attack value, a sudden rise. A three.js scene reacts to these values. It may grow, scroll, flash or spawn objects, and it keeps a small amount of state from frame to frame. A crossfade `Transitioner` blends from one scene to the next. `main.js` is an earlier prototype that draws wavy lines from the spectrum. `sketch.js` is an older p5.js prototype with a particle list and three key-selected scenes.

This project models that per-frame logic as Dafny classes and proves what each step promises. The three.js objects are reduced to the numbers the code writes into them:
- visibility flags, positions, scales and opacities;
- the `Float32Array` position and colour buffers, modelled as arrays;
- the envelopes, histories, pools and ring buffers that each scene keeps.

Each scene's `update` is a method proved against specification functions. Where the source loops, the method keeps the loop and carries its invariants. Lemmas then state the source's promises about those functions: bounds, wrap-around, round trips and "nothing else changes".

The project has one module per source file:
- `utils.dfy`: `core/utils.js`.
- `transitioner.dfy`: `core/Transitioner.js`.
- `main_script.dfy`: `main.js`.
- `sketch.dfy`: `sketch.js`.
- One module per scene under `scenes/`.

A few modules are shared between scenes:
- `Stage`: the camera.
- `LineRows`: the twenty wavy lines drawn by `main.js` and both WavyLines scenes.
- `Pools`: a generic free-list pool, used by HeavyRain.
- `Envelopes`: attack envelopes that trigger and decay.
- `Histories`: fixed-length scrolling histories.

`core/Transitioner.js` divides by the duration without a guard, so `Transitions.Transitioner.Update` requires duration > 0 (see "## Left out").

## Model

| member | source | states |
|---|---|---|
| Utils.MapEndpoints | core/utils.js:10-12 | the remap sends start1 to start2 and stop1 to stop2 |
| Utils.MapWithinRange | core/utils.js:10-12 | a value inside [start1, stop1] lands between start2 and stop2, whichever way the output range runs |
| Utils.MapMonotone | core/utils.js:10-12 | with both ranges increasing, a larger value never maps lower |
| Utils.MapExtrapolates | core/utils.js:10-12 | nothing is clamped: inputs past either end land past the matching end of the output range |
| Utils.MapRoundTrip | core/utils.js:10-12 | remapping with the two ranges swapped gives back the original value |
| Transitions.StartStep | core/Transitioner.js:19-29 | a start is accepted iff no transition is active and both scenes are present and distinct; a refused start changes nothing; an accepted one sets active, progress 0, the scenes and the slot |
| Transitions.StopStep | core/Transitioner.js:34-40 | stop puts every field back to its constructor value |
| Transitions.UpdateStep | core/Transitioner.js:47-53 | update leaves an idle transitioner alone and adds deltaTime / duration to an active one's progress, capped at 1; nothing else changes |
| Transitions.StepsPreserveWellFormed | core/Transitioner.js:5-53 | start, stop and update keep the transitioner either idle with the constructor's values, or active with two distinct scenes and progress in [0, 1] |
| Transitions.AtMostOneInFlight | core/Transitioner.js:19-21 | after an accepted start, any second start is refused and leaves the state alone |
| Transitions.UpdateMonotoneClamped | core/Transitioner.js:47-53 | update never lowers progress and never takes it past 1 |
| Transitions.StopIdempotent | core/Transitioner.js:34-40 | stopping twice is the same as stopping once, and the result is well formed |
| Transitions.RunClosedForm | core/Transitioner.js:47-53 | after any run of updates, progress is min(1, start + total deltaTime / duration), and the transition is still active with the same scenes: update never completes it |
| Transitions.CappedSum | core/Transitioner.js:50-52 | capping at 1 after every update gives the same progress as capping once at the end |
| Transitions.Transitioner.constructor | core/Transitioner.js:5-11 | a new transitioner is idle, with progress 0, no scenes and slot -1 |
| Transitions.Transitioner.Start | core/Transitioner.js:19-29 | the object's fields and result follow StartStep |
| Transitions.Transitioner.Stop | core/Transitioner.js:34-40 | the object's fields follow StopStep |
| Transitions.Transitioner.Update | core/Transitioner.js:47-53 | the object's fields follow UpdateStep |
| MainScript.BandsPartition | main.js:133-141 | for n >= 2 bins, bin i is bass iff i <= floor(0.2 n), mid iff it lies between that and floor(0.5 n), treble otherwise; the three bands come in that order |
| MainScript.BandCountPrefix | main.js:137-141 | the number of the first k bins that each band receives, in closed form |
| MainScript.DivisorsCountBins | main.js:143-145 | each divisor is exactly its band's bin count; the bass and mid counts are positive, and the treble band is empty iff n = 2 |
| MainScript.BandSumBounded | main.js:137-141 | a band's sum is at most 255 times its bin count |
| MainScript.BandSumOfSilence | main.js:137-141 | an all-zero spectrum gives every band a zero sum |
| MainScript.MeanInUnit | main.js:147-149 | a band mean divided by 255 lies in [0, 1] |
| MainScript.LevelsInUnit | main.js:127-150 | bass, mid and treble all lie in [0, 1] |
| MainScript.SilenceIsZero | main.js:127-150 | a silent spectrum gives the levels 0, 0, 0 |
| MainScript.FullScaleIsOne | main.js:127-150 | a full-scale spectrum of at least three bins gives the levels 1, 1, 1 |
| MainScript.BandSumFullScale | main.js:137-141 | a full-scale spectrum gives every band 255 times its bin count |
| MainScript.WavePointNearCentre | main.js:161-167 | a point of line i lies within the wave amplitude plus half the noise of -5 + i / 2 |
| MainScript.Visualizer.constructor | main.js:6-9 | the state before any frame: no analyser, levels 0, time 0, 20 hidden lines |
| MainScript.Visualizer.UpdateAudio | main.js:127-150 | without an analyser nothing changes; otherwise the levels are the band means over 255 of the spectrum (BandLevels) |
| MainScript.Visualizer.UpdateWavyLinesScene | main.js:152-177 | the first floor(map(bass, 0, 1, 1, 20)) lines are shown, with 121 points at x in [-10, 10] and y = centre + wave + glitch; the rest are hidden and their buffers untouched |
| LineRows.VisibleLineCountBounds | main.js:153 | for bass in [0, 1], between 1 and 20 lines are shown, and all 20 only at bass = 1 |
| LineRows.VisibleLineCountMonotone | main.js:153 | louder bass never shows fewer lines |
| LineRows.PointsEvenlySpaced | main.js:163-164 | the 121 points run from -halfWidth to halfWidth in equal steps of halfWidth / 60 |
| LineRows.LineGroup.constructor | main.js:55-67 | 20 lines with zero-filled buffers of 121 points, all visible or all hidden as the caller asks (main.js hides them, the scenes keep three.js's default of visible) |
| LineRows.LineGroup.WriteRow | main.js:163-171 | line i's buffer holds x, the caller's y and z = 0 for each of its 121 points; no other line changes |
| LineRows.LineGroup.Draw | main.js:157-176 | exactly the first numLines lines are visible, each rewritten; hidden lines keep their buffers |
| Sketch.Particle.constructor | sketch.js:16-20 | a new particle sits at (x, y) with its velocity and lifespan 255 |
| Sketch.Particle.Update | sketch.js:22-27 | the velocity is scaled by map(mid, 0, 255, 0.8, 1.5), the position moves by the new velocity, and the lifespan drops by 2 |
| Sketch.DiesAfter128Updates | sketch.js:19-37 | after n updates the lifespan is 255 - 2 n, which is negative (dead) iff n >= 128 |
| Sketch.AliveAppend | sketch.js:109-115 | culling two lists in turn is culling their concatenation: the survivors keep their order |
| Sketch.AliveExactly | sketch.js:109-115 | a particle survives the cull iff it was in the list and is not dead |
| Sketch.AliveDistinct | sketch.js:109-115 | culling a list without repeats gives a list without repeats that is no longer |
| Sketch.BeatBounds | sketch.js:99-102 | a beat releases between 5 and 30 particles for a bass of at most 255; a bass equal to the previous one is never a beat |
| Sketch.SceneAfterKeyStaysValid | sketch.js:164-173 | keys 1, 2 and 3 select that scene, other keys change nothing, so the scene stays in 1..3 |
| Sketch.SketchState.constructor | sketch.js:1-12 | the globals as declared: audio off, scene 1, no particles, previous bass 0, angle 0 |
| Sketch.SketchState.MousePressed | sketch.js:152-162 | the audio is on afterwards, and nothing else changes |
| Sketch.SketchState.KeyPressed | sketch.js:164-173 | the scene follows the key, choosing scene 2 empties the particle list, and nothing else changes |
| Sketch.SketchState.Spawn | sketch.js:103-105 | count fresh particles, all at the centre with lifespan 255, are appended to the list |
| Sketch.SketchState.Cull | sketch.js:109-115 | every particle is updated once, and the list becomes exactly the survivors in their original order |
| Sketch.SketchState.StepParticle | sketch.js:110 | particle i is updated with the mid level, and the list is unchanged |
| Sketch.SketchState.SpliceIfDead | sketch.js:112-114 | particle i leaves the list iff it is dead; the particles after it are already the survivors |
| Sketch.SketchState.CullAt | sketch.js:110-114 | one pass of the reverse loop: particle i is updated and spliced out if dead, leaving it and the later particles as their survivors; the earlier particles are untouched |
| Sketch.SketchState.DrawScene3 | sketch.js:118-120 | the angle grows by map(mid, 0, 255, 0, 0.03), and nothing else changes |
| Sketch.SketchState.SpawnOnBeat | sketch.js:99-107 | a beat appends SpawnCount(bass) fresh particles and anything else appends none; the bass is remembered |
| Sketch.SketchState.DrawScene2 | sketch.js:98-116 | the list becomes the survivors of the old particles followed by the survivors of the new ones; each particle loses 2 of lifespan; the bass is remembered |
| Sketch.SketchState.Draw | sketch.js:50-72 | nothing changes before the audio starts; after that, scene 2 runs DrawScene2, scene 3 turns the angle, and scene 1 changes no state |
| Histories.Scroll | scenes/AudioGraph.js:67-70 | the history keeps its length, every value moves one place towards the front, and the new value is last |
| Histories.ScrollAllWindow | scenes/AudioGraph.js:67-70 | a non-empty history of length n scrolled through any run of values holds the last n entries of the old history followed by those values; once n values have passed it holds exactly the newest n |
| AudioGraph.Column | scenes/AudioGraph.js:29 | coordinate c of each of the 120 points of a line buffer |
| AudioGraph.ColumnUpdate | scenes/AudioGraph.js:68 | writing coordinate c of point p changes point p of column c and leaves the other columns alone |
| AudioGraph.GridXsSpan | scenes/AudioGraph.js:81-83 | the line's x values run from 0 to the graph's width in 119 equal steps |
| AudioGraph.BorderLoop | scenes/AudioGraph.js:87-92 | the border is a closed loop: it starts and ends at the origin and every z is 0 |
| AudioGraph.LayoutTiles | scenes/AudioGraph.js:145-172 | the six cells are equal, keep a 0.8 margin to every edge of the view and between neighbours, and line up in two columns and three rows |
| AudioGraph.GraphDisplay.constructor | scenes/AudioGraph.js:10-44 | a new graph has an all-zero line and border, and width and height 0 |
| AudioGraph.GraphDisplay.Update | scenes/AudioGraph.js:65-72 | the line's y values scroll one place and the new value, mapped to [0, height], is last; x, z and the layout are untouched |
| AudioGraph.GraphDisplay.ShiftOne | scenes/AudioGraph.js:67-69 | one pass of the shift loop moves y of point i + 1 to point i and nothing else |
| AudioGraph.GraphDisplay.SetLayout | scenes/AudioGraph.js:74-102 | the graph records its size and position, its x values span the width, the border is the rectangle and the label sits at the top left; the y and z values are untouched |
| AudioGraph.GraphDisplay.DrawBorder | scenes/AudioGraph.js:87-93 | the border buffer is the closed rectangle of the graph's size |
| AudioGraph.GraphDisplay.PlaceX | scenes/AudioGraph.js:81-83 | one pass of the x loop sets x of point i to map(i, 0, 119, 0, w) and nothing else |
| AudioGraph.AudioGraphScene.PlaceColumn | scenes/AudioGraph.js:164-171 | three graphs go one under the other in one column, 0.8 apart; the other graphs and every y history are untouched |
| AudioGraph.AudioGraphScene.UpdateLayout | scenes/AudioGraph.js:145-172 | every graph sits in its cell for the camera's view, and no y history changes |
| AudioGraph.AudioGraphScene.constructor | scenes/AudioGraph.js:124-143 | six fresh graphs, lastAspect 0, laid out for the camera's view |
| AudioGraph.AudioGraphScene.FeedGroup | scenes/AudioGraph.js:181-186 | three graphs each scroll in their own value; the other graphs and every layout are untouched |
| AudioGraph.AudioGraphScene.RelayoutIfResized | scenes/AudioGraph.js:175-178 | the graphs are laid out again iff the aspect changed since the last layout, and the aspect is recorded; no y history changes |
| AudioGraph.AudioGraphScene.RecordAspect | scenes/AudioGraph.js:177 | the aspect the graphs were laid out for is the camera's current aspect |
| AudioGraph.AudioGraphScene.FeedAll | scenes/AudioGraph.js:180-186 | each audio value scrolls into the graph of its name, scaled to that graph's height; no layout changes |
| AudioGraph.AudioGraphScene.Update | scenes/AudioGraph.js:174-187 | a changed aspect lays the graphs out again, an unchanged one leaves every layout alone; then each value scrolls into its graph |
| AudioGraph.AudioGraphScene.Show | scenes/AudioGraph.js:193-196 | the scene becomes visible and is laid out for the current view; its invariant and last aspect are kept, and every graph's y history is untouched |
| AudioGraph.AudioGraphScene.Hide | scenes/AudioGraph.js:198-200 | only the visibility flag changes |
| CurveRacer.ProgressStaysOnLap | scenes/CurveRacer.js:71-74 | with mid in [0, 1] the pace lies in [0.001, 0.01] and the progress stays in [0, 1], moving on by the pace modulo one lap |
| CurveRacer.RacerScaleBounds | scenes/CurveRacer.js:79 | with bass in [0, 1] the racer's scale lies in [1, 3.5] |
| CurveRacer.NoiseOnlyAboveThreshold | scenes/CurveRacer.js:85-87 | the course shivers iff the treble is above 0.3, and by at most 0.5 |
| CurveRacer.JitterBounded | scenes/CurveRacer.js:89-90 | a draw in [0, 1) moves a coordinate by at most half the noise either way |
| CurveRacer.CurveRacerScene.constructor | scenes/CurveRacer.js:14-61 | the course and its base copy hold the sampled points; progress 0 and scale 1 |
| CurveRacer.CurveRacerScene.Shiver | scenes/CurveRacer.js:88-93 | every point's x and y become its base plus its own jitter, and every z is kept; with a non-negative noise and draws in [0, 1), each x and y lies within half the noise of its base |
| CurveRacer.CurveRacerScene.Update | scenes/CurveRacer.js:67-96 | progress advances by the pace modulo one lap, the racer sits at pointAt(progress) with scale 1 + map(bass, 0, 1, 0, 2.5), and the course is rebuilt with jitter iff the treble is above 0.3 |
| CurveRacer.CurveRacerScene.Show | scenes/CurveRacer.js:106-108 | the scene becomes visible; nothing else of the scene changes and its invariant is kept |
| CurveRacer.CurveRacerScene.Hide | scenes/CurveRacer.js:110-112 | the scene becomes hidden; nothing else of the scene changes and its invariant is kept |
| DeepSea.FreshBounds | scenes/DeepSea.js:120-130 | a released bubble starts in the 30-unit box just below the camera, with speed in [0.02, 0.07) and life 1 |
| DeepSea.NextOutcomes | scenes/DeepSea.js:152-165 | after a frame a bubble is below the surface or freshly released; without bass none is released, and with bass of at least 2 every surfacing bubble is |
| DeepSea.ParkedBubbleStaysDown | scenes/DeepSea.js:153-162 | a bubble parked at -1000 only climbs by its speed and stays below the surface for 14000 frames, whatever the bass |
| DeepSea.DeepSeaScene.ResetBubble | scenes/DeepSea.js:120-130 | bubble i is released afresh from the draws, and no other bubble changes |
| DeepSea.DeepSeaScene.constructor | scenes/DeepSea.js:15-31 | the camera position is saved and every bubble is released afresh (also line 99-102) |
| DeepSea.DeepSeaScene.StepBubble | scenes/DeepSea.js:153-164 | bubble i takes one frame (rise, then release or park past the surface), and no other bubble changes |
| DeepSea.DeepSeaScene.RiseBubbles | scenes/DeepSea.js:151-166 | every bubble takes one frame with its own draws |
| DeepSea.DeepSeaScene.Update | scenes/DeepSea.js:137-167 | the uniforms take time, mid and treble, the camera moves to (2 sin(0.05 t), 2 cos(0.05 t)) at the same z, and every bubble takes one frame |
| DeepSea.DeepSeaScene.Show | scenes/DeepSea.js:173-175 | the scene becomes visible; nothing else of the scene changes and its invariant is kept |
| DeepSea.DeepSeaScene.Hide | scenes/DeepSea.js:177-181 | the camera goes back to its saved position and the scene is hidden; nothing else of the scene changes and its invariant is kept |
| DeepSea.DeepSeaScene.Dispose | scenes/DeepSea.js:183-185 | the camera goes back to its saved position |
| DigitalCurtain.StandardDigits | scenes/DigitalCurtain.js:19-30 | 8 lights every segment, 1 only b and c, and 0 every segment but g |
| DigitalCurtain.DigitsDistinguishable | scenes/DigitalCurtain.js:19-30 | two digits that light the same segments are the same digit |
| DigitalCurtain.RandomDigit | scenes/DigitalCurtain.js:60 | Math.floor(random * 10) is a digit in 0..9 (also line 111) |
| DigitalCurtain.InitialWellFormed | scenes/DigitalCurtain.js:59-66 | a new digit shows 0..9, changes at a speed in [0.1, 0.6), and has no boost, no flash and no darkening |
| DigitalCurtain.StepWellFormed | scenes/DigitalCurtain.js:94-140 | the flash pass, the boost, change and darken steps and the fading all keep a digit well formed (digit in 0..9, flash in [0, 1], darkening in [0, 1], boost 1 or in [20, 40)) |
| DigitalCurtain.BoostOnlyAtRest | scenes/DigitalCurtain.js:106-108 | only a digit whose multiplier is exactly 1 gets a boost; any other multiplier is kept or dropped back to 1 |
| DigitalCurtain.ChangeTiming | scenes/DigitalCurtain.js:110-116 | a digit changes iff more than 1 / (changeSpeed * multiplier) has passed since its last change; a change records the time, shows a digit in 0..9 and drops any boost; otherwise the digit and its time stay |
| DigitalCurtain.DarkenAndFlash | scenes/DigitalCurtain.js:94-100 | a darken trigger sets the factor to 0, so the frame ends at 0.01; without one the factor climbs by 0.01 while below 1; a flash ends the frame at 0.9, and otherwise the flash shrinks by the factor 0.9 (also lines 119-121, 137-140) |
| DigitalCurtain.LitOutshinesUnlit | scenes/DigitalCurtain.js:124-133 | with bass in [0, 1] a lit segment is never darker than an unlit segment of the same digit |
| DigitalCurtain.GridCentred | scenes/DigitalCurtain.js:56-57 | the grid is symmetric about the origin: column x mirrors column 19 - x, and row y mirrors row 11 - y |
| DigitalCurtain.SegmentsInsideCell | scenes/DigitalCurtain.js:68-76 | each segment's offset lies inside its digit's 1.8 x 2.8 cell |
| DigitalCurtain.DigitalCurtainScene.PlaceDigit | scenes/DigitalCurtain.js:56-83 | the seven instances of digit (x, y) sit at the digit's centre plus each segment's offset and rotation, and the digit gets its initial state; nothing else changes |
| DigitalCurtain.DigitalCurtainScene.PlaceRow | scenes/DigitalCurtain.js:55-84 | the 20 digits of row y are placed and given their initial states; nothing else changes |
| DigitalCurtain.DigitalCurtainScene.constructor | scenes/DigitalCurtain.js:6-87 | all 240 digits start from their draws, and every instance sits at its digit's place plus its segment's offset and rotation |
| DigitalCurtain.DigitalCurtainScene.FlashAll | scenes/DigitalCurtain.js:94-100 | on a bass attack above 0.05 each digit whose draw is below 0.1 flashes; otherwise no digit changes |
| DigitalCurtain.DigitalCurtainScene.ShadeDigit | scenes/DigitalCurtain.js:123-135 | the seven colours of digit i are its lit or unlit shade; no other instance changes |
| DigitalCurtain.DigitalCurtainScene.StepDigit | scenes/DigitalCurtain.js:104-140 | digit i is advanced, its seven colours written from the advanced state, and then faded; no other digit or instance changes |
| DigitalCurtain.DigitalCurtainScene.Update | scenes/DigitalCurtain.js:89-143 | every digit becomes Stepped(Flashed(old state)), and every instance holds the shade of its segment in its digit's advanced state |
| DigitalCurtain.DigitalCurtainScene.Show | scenes/DigitalCurtain.js:149-151 | the scene becomes visible; nothing else of the scene changes and its invariant is kept |
| DigitalCurtain.DigitalCurtainScene.Hide | scenes/DigitalCurtain.js:153-155 | the scene becomes hidden; nothing else of the scene changes and its invariant is kept |
| EchoingSemicircles.PushShift | scenes/EchoingSemicircles.js:104-107 | a 10-entry history stays 10 entries long and ends with the new bass |
| EchoingSemicircles.WindowStep | scenes/EchoingSemicircles.js:104-107 | push-then-shift keeps the history equal to the last 10 entries of ten zeros followed by every bass passed so far |
| EchoingSemicircles.DelayedBass | scenes/EchoingSemicircles.js:68-70 | the oldest entry is the bass passed 9 updates before the latest, or 0 during the first 9 updates; the newest is the latest bass (also line 104-108) |
| EchoingSemicircles.RadiusBounds | scenes/EchoingSemicircles.js:111-112 | for bass in [0, 1] a radius lies in [3, 7] |
| EchoingSemicircles.UndistortedScales | scenes/EchoingSemicircles.js:87-91 | without distortion or glitch every vertex is its base vertex times the radius |
| EchoingSemicircles.EchoingSemicirclesScene.constructor | scenes/EchoingSemicircles.js:14-73 | both semicircles hold their 65 base vertices on the unit circle, and the history is ten zeros |
| EchoingSemicircles.EchoingSemicirclesScene.UpdateVertices | scenes/EchoingSemicircles.js:82-94 | x and y of each of the 65 vertices become the base vertex scaled to the distorted radius; z and the base are not written |
| EchoingSemicircles.EchoingSemicirclesScene.SetVertex | scenes/EchoingSemicircles.js:87-91 | one pass of the loop rescales x and y of vertex i and nothing else |
| EchoingSemicircles.EchoingSemicirclesScene.Update | scenes/EchoingSemicircles.js:100-122 | the bass is pushed into the history; the left semicircle is redrawn with the current bass and the right one with the oldest history entry |
| EchoingSemicircles.EchoingSemicirclesScene.Show | scenes/EchoingSemicircles.js:132-134 | the semicircles become visible; nothing else of the scene changes and its invariant is kept |
| EchoingSemicircles.EchoingSemicirclesScene.Hide | scenes/EchoingSemicircles.js:136-138 | the semicircles are hidden; nothing else of the scene changes and its invariant is kept |
| ElevatorShaft.SpeedBounds | scenes/ElevatorShaft.js:131 | with mid in [0, 1] the speed lies in [0.08, 0.8] |
| ElevatorShaft.SegmentStaysInShaft | scenes/ElevatorShaft.js:136-141 | a segment in [-25, 25) stays there for any speed in [0, 50] |
| ElevatorShaft.SegmentScrollsRigidly | scenes/ElevatorShaft.js:44 | every segment stays at its start position moved down by the distance travelled, modulo 50: the shaft scrolls as one piece (also line 136-141) |
| ElevatorShaft.LeapfrogKeepsStacked | scenes/ElevatorShaft.js:144-156 | for any step up to 60 the two copies of a layer stay one exactly 60 above the other, the lower one not below -60 |
| ElevatorShaft.WindowShadeBounds | scenes/ElevatorShaft.js:174-186 | every window shade lies in [0.1, 0.8]; at treble 0.2 or less no window lights; only a window whose draw passes the threshold is brighter than 0.1 |
| ElevatorShaft.FloorOpacityBounds | scenes/ElevatorShaft.js:163 | for an envelope in [0, 1] the floor opacity lies in [0.2, 0.7] |
| ElevatorShaft.ElevatorShaftScene.constructor | scenes/ElevatorShaft.js:10-125 | segments at 5 i - 25, each layer's second copy 60 above its first, the envelope 0 |
| ElevatorShaft.ElevatorShaftScene.ScrollShaft | scenes/ElevatorShaft.js:134-141 | every segment takes one step down by the speed, wrapping by 50 below -25; the rigid-scroll invariant is kept |
| ElevatorShaft.ElevatorShaftScene.ScrollBuildings | scenes/ElevatorShaft.js:144-156 | every layer moves down by speed times its factor and leapfrogs, staying stacked |
| ElevatorShaft.ElevatorShaftScene.FlickerWindows | scenes/ElevatorShaft.js:170-192 | every window of the six meshes gets its shade from its own two draws |
| ElevatorShaft.ElevatorShaftScene.LightElevator | scenes/ElevatorShaft.js:159-164 | the unit's opacity is map(bass, 0, 1, 0.2, 0.8), the floor's is 0.2 + 0.5 times the triggered envelope, and the envelope then decays by 0.85 |
| ElevatorShaft.ElevatorShaftScene.Update | scenes/ElevatorShaft.js:127-193 | the shaft and buildings scroll at the mid-driven speed, the floor flashes on a bass attack, and every window is shaded from its draws |
| ElevatorShaft.ElevatorShaftScene.Show | scenes/ElevatorShaft.js:205-207 | the scene becomes visible; nothing else of the scene changes and its invariant is kept |
| ElevatorShaft.ElevatorShaftScene.Hide | scenes/ElevatorShaft.js:209-211 | the scene becomes hidden; nothing else of the scene changes and its invariant is kept |
| HeavyRain.RainFrameKeepsPool | scenes/HeavyRain.js:92-137 | a rain frame keeps every line in exactly one of the free and live lists (their lengths add up to 200), exactly the live lines visible with opacity in (0.45, 0.9], and no live line below z = 0 |
| HeavyRain.RippleFrameKeepsPool | scenes/HeavyRain.js:139-166 | a ripple frame keeps every ripple in exactly one list, exactly the live ones visible with life in (0, 1], and every live ripple's opacity equal to its life |
| HeavyRain.RainSpawnTakesFromPool | scenes/HeavyRain.js:96-120 | the spawn loop moves min(count, free lines) lines from the end of the free list onto the end of the live list, leaving the rest of both lists as they were; it stops early only when the pool is empty |
| HeavyRain.RainSpawnCountAtLeastTwo | scenes/HeavyRain.js:93-94 | with non-negative treble levels at least two drops are asked for each frame |
| HeavyRain.SpawnedDrop | scenes/HeavyRain.js:100-118 | a spawned drop is visible at z = 10, has opacity 0.9 exactly when trebleAttack exceeds 0.15 and 0.5 otherwise, and with mid in [0, 1] falls at a speed in [0.2, 1.0) |
| HeavyRain.RippleLifetime | scenes/HeavyRain.js:149-164 | a ripple spawned with life 1 is still live after 24 passes and is retired on the 25th |
| HeavyRain.RippleLifeAfter | scenes/HeavyRain.js:158 | after n passes a ripple's life has dropped by exactly 0.04 n |
| HeavyRain.FreshRain | scenes/HeavyRain.js:56-62 | 200 hidden lines, all on the free list, satisfy the rain pool invariants |
| HeavyRain.FreshRipples | scenes/HeavyRain.js:69-80 | 50 hidden ripples, all on the free list, satisfy the ripple pool invariants |
| HeavyRain.HeavyRainScene.constructor | scenes/HeavyRain.js:14-83 | saves the camera position; 200 hidden rain lines and 50 hidden ripples, every one on its free list in index order, none live, pool invariants established |
| HeavyRain.HeavyRainScene.SpawnRain | scenes/HeavyRain.js:96-120 | the rain state afterwards is the pool spawn function applied to the old state: pop, set up, push, break when empty |
| HeavyRain.HeavyRainScene.StepRainAt | scenes/HeavyRain.js:124-136 | one step of the reverse pass on live index i equals the pool step function: fall, fade a flash by 0.05, and below z = 0 hide, push on the free list and splice out |
| HeavyRain.HeavyRainScene.StepRain | scenes/HeavyRain.js:123-137 | the whole reverse pass equals the pool pass function over every live line, from the last to the first |
| HeavyRain.HeavyRainScene.SpawnRipples | scenes/HeavyRain.js:142-152 | the ripple state afterwards is the pool spawn function applied to the old state; a count of 0 changes nothing |
| HeavyRain.HeavyRainScene.StepRippleAt | scenes/HeavyRain.js:157-165 | one step of the ripple pass: life down by 0.04, scale times speed, opacity set to the life, retired at life 0 or below |
| HeavyRain.HeavyRainScene.StepRipples | scenes/HeavyRain.js:156-166 | the whole ripple pass equals the pool pass function over every live ripple |
| HeavyRain.HeavyRainScene.UpdateRain | scenes/HeavyRain.js:92-137 | the rain half of update equals one rain frame and keeps the rain pool invariants |
| HeavyRain.HeavyRainScene.UpdateRipples | scenes/HeavyRain.js:139-166 | the ripple half of update spawns 1 + floor(10 bass) ripples only when bassAttack > 0.08 or bass > 0.5, equals one ripple frame and keeps the ripple pool invariants |
| HeavyRain.HeavyRainScene.Update | scenes/HeavyRain.js:88-167 | update is a rain frame followed by a ripple frame, and both pools keep their invariants |
| HeavyRain.HeavyRainScene.Show | scenes/HeavyRain.js:184-188 | the scene becomes visible and the camera moves to (0, 0, 5), its lens untouched; nothing else of the scene changes and its invariant is kept |
| HeavyRain.HeavyRainScene.Hide | scenes/HeavyRain.js:193-197 | the scene disappears and the camera returns to the position saved at construction; nothing else of the scene changes and its invariant is kept |
| HeavyRain.HeavyRainScene.Dispose | scenes/HeavyRain.js:202-204 | the camera returns to the position saved at construction |
| Pools.Range | scenes/HeavyRain.js:56-80 | the initial free list of n objects has exactly n entries |
| Pools.RangeCounts | scenes/HeavyRain.js:56-80 | every index below n is on the initial free list exactly once, and nothing else is |
| Pools.FreshArena | scenes/HeavyRain.js:56-80 | n hidden objects, all on the free list and none live, satisfy every pool invariant |
| Pools.PartitionExactlyOnce | scenes/HeavyRain.js:32-35 | when the two lists together hold every object once, each object is in exactly one of them, they add up to the number of objects, hold only existing objects and neither repeats one |
| Pools.SpawnOne | scenes/HeavyRain.js:97-119 | one spawn keeps both lists within range and the objects' count unchanged |
| Pools.SpawnFrom | scenes/HeavyRain.js:96-120 | the spawn loop keeps both lists within range and the objects' count unchanged |
| Pools.SpawnFromEmptyPool | scenes/HeavyRain.js:97-98 | with an empty free list the spawn loop changes nothing |
| Pools.SpawnMoves | scenes/HeavyRain.js:96-120 | count - k spawns move min(count - k, free objects) objects from the end of the free list onto the end of the live list; the prefixes of both lists stay as they were |
| Pools.SpawnOnePreserves | scenes/HeavyRain.js:97-119 | a spawn keeps the partition, keeps exactly the live objects visible and every live object good |
| Pools.SpawnFromPreserves | scenes/HeavyRain.js:96-120 | the whole spawn loop keeps the same three invariants |
| Pools.StepAt | scenes/HeavyRain.js:124-136 | one step of the reverse pass on live index i keeps both lists within range, the objects' count, and the live entries before i, which the pass has still to visit |
| Pools.StepFrom | scenes/HeavyRain.js:123-137 | the remaining reverse pass keeps both lists within range and the objects' count unchanged |
| Pools.StepAll | scenes/HeavyRain.js:123-137 | the whole pass keeps both lists within range and the objects' count unchanged |
| Pools.StepAtPartitioned | scenes/HeavyRain.js:132-136 | a step keeps the partition; an expired object, and only it, leaves the live list; a survivor leaves the live list unchanged |
| Pools.StepAtPreserves | scenes/HeavyRain.js:124-136 | a step keeps exactly the live objects visible and every live object good |
| Pools.StepFromPreserves | scenes/HeavyRain.js:123-137 | the remaining pass keeps the pool invariants |
| Pools.StepAtSurvivors | scenes/HeavyRain.js:124-136 | after a step at i the live objects from i on are settled survivors, and the partition holds |
| Pools.StepFromSurvivors | scenes/HeavyRain.js:123-137 | after the whole reverse pass every live object has been advanced without expiring |
| Pools.StepAllPreserves | scenes/HeavyRain.js:123-137 | the per-frame pass keeps the pool invariants and leaves only settled survivors live |
| Pools.FramePreserves | scenes/HeavyRain.js:92-166 | a spawn loop followed by a reverse pass keeps every object in exactly one list (lengths add up to n), exactly the live objects visible and good, and only settled survivors live |
| InfiniteTunnel.InitialRingsEvenlySpaced | scenes/InfiniteTunnel.js:40-44 | init puts ring i at -5 i: twenty rings 5 units apart, from 0 back to -95, all within the 100-unit tunnel |
| InfiniteTunnel.LevelsBounded | scenes/InfiniteTunnel.js:56-57 | with mid and bass in [0, 1] the tunnel flies at 0.1 to 0.8 units a frame and widens 1 to 1.8 times |
| InfiniteTunnel.RingStaysInTunnel | scenes/InfiniteTunnel.js:61-67 | a ring between 100 behind the camera and the camera stays there after a frame at any speed up to the tunnel depth |
| InfiniteTunnel.RingsKeepTheirSpacing | scenes/InfiniteTunnel.js:61-67 | each frame every ring moves by the speed, less 100 if it passed the camera, so the gap between two rings changes only by a whole tunnel length |
| InfiniteTunnel.InfiniteTunnelScene.PlaceRings | scenes/InfiniteTunnel.js:40-44 | the init loop puts every ring at its initial depth, untwisted |
| InfiniteTunnel.InfiniteTunnelScene.constructor | scenes/InfiniteTunnel.js:16-46 | twenty rings at their initial depths, speed 0, the group at scale 1 and visible, every ring inside the tunnel |
| InfiniteTunnel.InfiniteTunnelScene.Update | scenes/InfiniteTunnel.js:53-69 | the speed becomes map(mid, 0, 1, 0.1, 0.8), the group's x and y scale 1 + map(bass, 0, 1, 0, 0.8) and z scale 1; every ring moves one ring step and twists by map(treble, 0, 1, 0, 0.3); every ring stays inside the tunnel |
| InfiniteTunnel.InfiniteTunnelScene.FlyRings | scenes/InfiniteTunnel.js:60-68 | the ring loop gives every ring exactly one ring step and one twist, and keeps every ring inside the tunnel |
| InfiniteTunnel.InfiniteTunnelScene.Show | scenes/InfiniteTunnel.js:81-83 | the tunnel becomes visible; nothing else of the scene changes and its invariant is kept |
| InfiniteTunnel.InfiniteTunnelScene.Hide | scenes/InfiniteTunnel.js:85-87 | the tunnel is hidden; nothing else of the scene changes and its invariant is kept |
| Envelopes.Triggered | scenes/LunarPhases.js:112-114 | an attack above its threshold sets the envelope to its peak, whatever it was; any other attack leaves it unchanged |
| Envelopes.EnvelopeBounds | scenes/LunarPhases.js:112-148 | an envelope in [0, peak] stays in [0, peak] through a frame's trigger and decay by a factor in [0, 1], and without a trigger it does not grow |
| Envelopes.DecayedNShrinks | scenes/LunarPhases.js:146-148 | an envelope that is never triggered again stays between 0 and its starting value, frame after frame |
| LunarPhases.GridCentred | scenes/LunarPhases.js:29-35 | the nine moons are 3.5 apart on a 3 x 3 grid centred on the origin (moon 4 at the origin, moon i mirrors moon 8 - i), within 3.5 of it on both axes (also line 91-95) |
| LunarPhases.PhaseBounds | scenes/LunarPhases.js:125-137 | every phase lies in [0, 1], and the three columns of a row are a third of a cycle apart starting at offset 0 |
| LunarPhases.RowsFollowTheirBand | scenes/LunarPhases.js:112-140 | a moon's phase and flash after a frame depend only on the level and the attack of its row's band: inputs that agree on that band give the moon the same phase and flash whatever the other two bands do; the moons of one row share their flash |
| LunarPhases.LunarPhasesScene.PlaceRow | scenes/LunarPhases.js:40-98 | one pass of the outer grid loop puts the three moons of row y at their grid positions and leaves the other moons where they were |
| LunarPhases.LunarPhasesScene.constructor | scenes/LunarPhases.js:14-102 | nine moons at their grid positions, every phase and flash 0, the three envelopes 0, the scene visible |
| LunarPhases.LunarPhasesScene.SetMoons | scenes/LunarPhases.js:117-143 | every moon's phase is its row band's phase at its column's offset, and its flash is that band's envelope |
| LunarPhases.LunarPhasesScene.SetMoon | scenes/LunarPhases.js:118-142 | one pass of the moon loop sets moon i's phase and flash from its row and column and leaves every other moon as it was |
| LunarPhases.LunarPhasesScene.Update | scenes/LunarPhases.js:108-149 | the envelopes are triggered, every moon is set from its row's band with the triggered envelopes, then the envelopes decay by 0.9; the envelopes stay in [0, 0.8] |
| LunarPhases.LunarPhasesScene.TriggerEffects | scenes/LunarPhases.js:112-114 | each attack above 0.1 sets its band's envelope to 0.8; the envelopes stay in [0, 0.8] |
| LunarPhases.LunarPhasesScene.DecayEffects | scenes/LunarPhases.js:146-148 | each envelope is multiplied by 0.9 and stays in [0, 0.8] |
| LunarPhases.LunarPhasesScene.Show | scenes/LunarPhases.js:158-160 | the moons become visible; nothing else of the scene changes and its invariant is kept |
| LunarPhases.LunarPhasesScene.Hide | scenes/LunarPhases.js:162-164 | the moons are hidden; nothing else of the scene changes and its invariant is kept |
| MirroredLake.ReflectionMirrorsMountain | scenes/MirroredLake.js:147-171 | the reflection is the mountain upside down (same x, negated y at every point); both outlines start and end at the left end of the horizon and hold floor(n / 2) + 3 points, the ridge running from the left edge to the right edge |
| MirroredLake.MountainBelowPeak | scenes/MirroredLake.js:151-155 | for a non-negative peak every point of the mountain's outline lies between the horizon and the peak |
| MirroredLake.StarStaysInSky | scenes/MirroredLake.js:177-184 | a star with y in [0, 100] stays in [0, 100] after a frame at any speed in [0, 100] |
| MirroredLake.StarSpeedBounds | scenes/MirroredLake.js:174 | with mid in [0, 1] the stars drift up by 0 to 0.1 a frame |
| MirroredLake.MirroredLakeScene.StarSlots | scenes/MirroredLake.js:87 | entries 3 i, 3 i + 1 and 3 i + 2 of the position buffer are the x, y and z of star i |
| MirroredLake.MirroredLakeScene.PlaceStars | scenes/MirroredLake.js:82-91 | the init loop gives every star its x, y and z from its own three draws and a grey level from its fourth |
| MirroredLake.MirroredLakeScene.constructor | scenes/MirroredLake.js:6-134 | random stars in [-200, 200) x [0, 100) x [-45, 5), every star inside the sky band, empty mountain outlines, reflected stars at opacity 0.4 |
| MirroredLake.MirroredLakeScene.BuildOutline | scenes/MirroredLake.js:147-157 | the shape loop builds exactly the outline of the mountain for the given peak |
| MirroredLake.MirroredLakeScene.Redraw | scenes/MirroredLake.js:142-171 | the mountain and its reflection are rebuilt as wide as the view at depth -20, peaking at 0.3 and -0.3 of its height; the stars' opacities are untouched |
| MirroredLake.MirroredLakeScene.DriftStars | scenes/MirroredLake.js:177-184 | the star loop moves only the y of every star, by one star step, and keeps every star in [0, 100] |
| MirroredLake.MirroredLakeScene.Update | scenes/MirroredLake.js:136-191 | without spectrum data nothing changes; otherwise the mountains are rebuilt, every star drifts by map(mid, 0, 1, 0, 0.1) and wraps, the stars' opacity becomes map(treble, 0, 0.5, 0.2, 2) and the reflection's 0.3 of it |
| MirroredLake.MirroredLakeScene.Show | scenes/MirroredLake.js:199-201 | the scene becomes visible; nothing else of the scene changes and its invariant is kept |
| MirroredLake.MirroredLakeScene.Hide | scenes/MirroredLake.js:203-205 | the scene is hidden; nothing else of the scene changes and its invariant is kept |
| ParticleBurst.BurstSizeBounds | scenes/ParticleBurst.js:63-64 | on a beat with bass at most 1 the burst holds 10 to 50 particles, 50 exactly at full bass |
| ParticleBurst.LastEmission | scenes/ParticleBurst.js:100-114 | names an emission of the burst (below count) whose wrapped write index is the slot, or -1 |
| ParticleBurst.EmittedSlots | scenes/ParticleBurst.js:100-114 | a burst of at most 1000 writes slot p exactly when (p - start) mod 1000 is below the count, and then by that emission: each of the count slots after the write index is written once and no other slot |
| ParticleBurst.WrapUnique | scenes/ParticleBurst.js:113 | two emissions fewer than 1000 apart never land on the same slot |
| ParticleBurst.WrapSucc | scenes/ParticleBurst.js:113 | advancing the wrapped write index by one equals wrapping the advanced index |
| ParticleBurst.EmitOneMore | scenes/ParticleBurst.js:101-113 | one more emission changes exactly the slot at the write index: lifespan 1, position the origin, x and y velocity the emission's |
| ParticleBurst.LifespansStayInRange | scenes/ParticleBurst.js:84 | a burst and a frame of ageing keep every lifespan in (-0.015, 1] (also line 112) |
| ParticleBurst.DeadParticlesUntouched | scenes/ParticleBurst.js:76-86 | the frame's pass changes no dead particle, and never a z coordinate or z velocity |
| ParticleBurst.BurstOfBounds | scenes/ParticleBurst.js:62-66 | a frame emits 10 to 50 particles on a beat and none without one |
| ParticleBurst.EmitNothing | scenes/ParticleBurst.js:100 | a burst of no particles leaves all three buffers as they were |
| ParticleBurst.DriftOneMore | scenes/ParticleBurst.js:77-85 | one more particle of the pass moves, slows and ages only if it is live, and nothing else changes |
| ParticleBurst.ParticleBurstScene.constructor | scenes/ParticleBurst.js:13-53 | write index 0, previous bass 0, every particle dead, every lifespan in range, the points visible |
| ParticleBurst.ParticleBurstScene.Launch | scenes/ParticleBurst.js:103-112 | the slot goes back to the origin with the new x and y velocity and lifespan 1; nothing else changes |
| ParticleBurst.ParticleBurstScene.EmitParticles | scenes/ParticleBurst.js:95-115 | the write index advances by the count modulo 1000, and the buffers are those of the burst: each written slot restarts at the origin with lifespan 1 and its emission's velocity |
| ParticleBurst.ParticleBurstScene.EmitOne | scenes/ParticleBurst.js:101-113 | one pass of the emission loop extends the buffers from the first i emissions to the first i + 1 and advances the wrapped write index |
| ParticleBurst.ParticleBurstScene.DriftOne | scenes/ParticleBurst.js:77-85 | a live particle moves by its x and y velocity, slows by 0.995 and ages by 0.015; a dead one is untouched; no other slot changes |
| ParticleBurst.ParticleBurstScene.Drift | scenes/ParticleBurst.js:76-86 | the pass over all 1000 slots ages, moves and damps exactly the live particles |
| ParticleBurst.ParticleBurstScene.Update | scenes/ParticleBurst.js:59-89 | a burst of floor(map(bass, 0.6, 1, 10, 50)) particles exactly on a beat, the bass remembered, point size map(treble, 0, 1, 0.05, 0.25), then one pass over the buffers |
| ParticleBurst.ParticleBurstScene.Show | scenes/ParticleBurst.js:125-127 | the points become visible; nothing else of the scene changes and its invariant is kept |
| ParticleBurst.ParticleBurstScene.Hide | scenes/ParticleBurst.js:129-131 | the points are hidden; nothing else of the scene changes and its invariant is kept |
| Pulsing3DGrid.IndexRoundTrip | scenes/Pulsing3DGrid.js:41-53 | the triple loop numbers the 1331 points without gaps or repeats: counters (x, y, z) give list position 121 x + 11 y + z, from which the counters are read back |
| Pulsing3DGrid.GridPointAt | scenes/Pulsing3DGrid.js:44-48 | the point pushed for counters x, y, z is at (x, y, z) * step - halfSize |
| Pulsing3DGrid.GridCentred | scenes/Pulsing3DGrid.js:37-48 | the lattice is centred on the origin: every coordinate lies in [-5, 5], the first point is (-5, -5, -5) and the last (5, 5, 5) |
| Pulsing3DGrid.FlickersAboveHalfTreble | scenes/Pulsing3DGrid.js:105-109 | the colours are redrawn exactly when the treble is above 0.5, and then a point is picked with chance at most 0.1 while the treble stays within 1 |
| Pulsing3DGrid.FlickerBaseOrRandom | scenes/Pulsing3DGrid.js:109-117 | a flickering point shows its base colour or a colour Math.random() could draw, never anything else, and with no treble effect it shows its base colour |
| Pulsing3DGrid.PulseBounds | scenes/Pulsing3DGrid.js:92-94 | with bass in [0, 1] the lattice scales 1 to 2.5 times and the point size stays in [0.05, 0.15] |
| Pulsing3DGrid.PushPoint | scenes/Pulsing3DGrid.js:44-50 | one pass of the innermost loop appends the point's three coordinates, its three colour entries and its base colour, keeping every pushed point at its grid position |
| Pulsing3DGrid.PushColumn | scenes/Pulsing3DGrid.js:43-51 | the innermost loop pushes the eleven points of column (x, y), each at its grid position in the base colour |
| Pulsing3DGrid.PushSlab | scenes/Pulsing3DGrid.js:42-52 | the middle loop pushes the 121 points of slab x, each at its grid position in the base colour |
| Pulsing3DGrid.BuildGrid | scenes/Pulsing3DGrid.js:41-53 | the triple loop pushes all 1331 points, point p at its grid position in the base colour |
| Pulsing3DGrid.Pulsing3DGridScene.constructor | scenes/Pulsing3DGrid.js:14-82 | the buffers hold the lattice, every point and every base colour in the foreground colour; scale 1, size 0.05, no rotation, visible |
| Pulsing3DGrid.Pulsing3DGridScene.FlickerPoint | scenes/Pulsing3DGrid.js:109-117 | one pass of the colour loop gives point p its flicker colour and leaves every other point as it was |
| Pulsing3DGrid.Pulsing3DGridScene.SetColor | scenes/Pulsing3DGrid.js:110-116 | the three colour entries of point p become the colour and no other entry changes |
| Pulsing3DGrid.Pulsing3DGridScene.FlickerAll | scenes/Pulsing3DGrid.js:108-118 | every point flickers: a random colour if its chance falls below a tenth of the effect, its base colour otherwise; the lattice does not move |
| Pulsing3DGrid.Pulsing3DGridScene.Update | scenes/Pulsing3DGrid.js:88-121 | scale 1 + map(bass, 0, 1, 0, 1.5), size map(bass, 0, 1, 0.05, 0.15), rotation by map(mid, 0, 1, 0, 0.01) about y and 0.005 about x, opacity map(treble, 0, 1, 0.6, 1); above half treble every colour flickers, below it none changes |
| Pulsing3DGrid.Pulsing3DGridScene.RecolorPoint | scenes/Pulsing3DGrid.js:130-133 | point p and its base colour become the new colour; every other point and base colour is unchanged |
| Pulsing3DGrid.Pulsing3DGridScene.UpdateForegroundColor | scenes/Pulsing3DGrid.js:126-136 | every point and every base colour becomes the new colour |
| Pulsing3DGrid.Pulsing3DGridScene.Show | scenes/Pulsing3DGrid.js:138-140 | the lattice becomes visible; nothing else of the scene changes and its invariant is kept |
| Pulsing3DGrid.Pulsing3DGridScene.Hide | scenes/Pulsing3DGrid.js:142-144 | the lattice is hidden; nothing else of the scene changes and its invariant is kept |
| ReactiveSmoke.AccumulatedBounds | scenes/ReactiveSmoke.js:151-152 | an attack above 0.1 adds twice itself to the envelope, saturating at exactly 1 (reached exactly when the sum is at least 1); an envelope in [0, 1] never drops and stays in [0, 1]; a weaker attack changes nothing |
| ReactiveSmoke.SteppedBounds | scenes/ReactiveSmoke.js:151-165 | a whole frame, accumulation then decay by a factor in [0, 1], keeps an envelope in [0, 1] |
| ReactiveSmoke.ReactiveSmokeScene.constructor | scenes/ReactiveSmoke.js:14-45 | both envelopes and every level uniform 0, the resolution uniform the window size, the smoke visible |
| ReactiveSmoke.ReactiveSmokeScene.Update | scenes/ReactiveSmoke.js:147-166 | the shader gets the time, the three levels, the window size and the accumulated envelopes before their decay; the envelopes then decay by 0.99 (bass) and 0.98 (treble) and stay in [0, 1] |
| ReactiveSmoke.ReactiveSmokeScene.Show | scenes/ReactiveSmoke.js:175-177 | the smoke becomes visible; nothing else of the scene changes and its invariant is kept |
| ReactiveSmoke.ReactiveSmokeScene.Hide | scenes/ReactiveSmoke.js:179-181 | the smoke is hidden; nothing else of the scene changes and its invariant is kept |
| StarryLake.RidgeSpansWidth | scenes/StarryLake.js:82-87 | the ridge runs from x = -150 at its first point to x = 150 at its last |
| StarryLake.IndicesInRange | scenes/StarryLake.js:99-106 | the index buffer holds 127 quads of two triangles, 762 entries, each naming one of the 256 vertices, and each quad joins ridge points i and i + 1 only |
| StarryLake.RidgeYBounds | scenes/StarryLake.js:154-157 | a bass in [0, 1] raises its ridge point to a height in [0, 25], a louder bass no lower |
| StarryLake.StarSizeBounds | scenes/StarryLake.js:142 | for a flash envelope in [0, 1] the star size lies in [0.15, 0.45] |
| StarryLake.StarryLakeScene.SetColumn | scenes/StarryLake.js:87-95 | one pass of the mesh-filling loop sets ridge vertex i and the horizon vertex below it to (x, 0, 0) and leaves every other vertex as it was |
| StarryLake.StarryLakeScene.FillMountain | scenes/StarryLake.js:86-96 | the mesh-filling loop leaves both rows flat at y = 0, z = 0 with x spread over 300 units |
| StarryLake.StarryLakeScene.BuildIndices | scenes/StarryLake.js:99-106 | the index loop pushes the two triangles (tl, bl, tr) and (tr, bl, br) of every quad, in order |
| StarryLake.StarryLakeScene.constructor | scenes/StarryLake.js:14-124 | a flat mountain and an identical reflection, the index buffer, a history of 128 zeros, no flash, the group visible |
| StarryLake.StarryLakeScene.DrawRidge | scenes/StarryLake.js:156-160 | the y of ridge point i in both buffers becomes the height of history entry i; every other entry is unchanged |
| StarryLake.StarryLakeScene.Update | scenes/StarryLake.js:131-163 | the group pans to 4 sin(0.1 t); a treble attack above 0.15 sets the flash to 1, the stars' size and opacity follow it and the flash decays by 0.9, staying in [0, 1]; the history scrolls in the new bass and both ridges redraw from it |
| StarryLake.StarryLakeScene.Show | scenes/StarryLake.js:168-170 | the group becomes visible; nothing else of the scene changes and its invariant is kept |
| StarryLake.StarryLakeScene.Hide | scenes/StarryLake.js:175-177 | the group is hidden; nothing else of the scene changes and its invariant is kept |
| TriTile.Orientation | scenes/TriTile.js:57-67 | an upward tile has two vertices on the bottom of its row and its apex on the top, a downward tile the other way round; neighbours in a row or a column point opposite ways |
| TriTile.SharedEdge | scenes/TriTile.js:52-67 | the right edge of a tile is the left edge of its neighbour in the row, so the triangles tile the plane without gaps |
| TriTile.Pick | scenes/TriTile.js:111 | a random draw in [0, 1) picks a tile index within the 1056 tiles, so the existence check of the flash loop always succeeds |
| TriTile.FlashCountBounds | scenes/TriTile.js:108-109 | a treble in (0.12, 1] flashes between 1 and 50 tiles |
| TriTile.FadeBounds | scenes/TriTile.js:120-124 | a life in (-0.05, 1] stays there and never grows through a frame, and a life at or below 0 is clamped to 0 |
| TriTile.FadesOut | scenes/TriTile.js:113-124 | a tile flashed to life 1 loses exactly 0.05 a frame and is dark, at exactly 0, from the 20th frame on |
| TriTile.IdleBounds | scenes/TriTile.js:126 | a tile's shimmer lies in [0, 0.05] |
| TriTile.FlashOutshinesShimmer | scenes/TriTile.js:113-127 | at the same bass, a tile flashed this frame is drawn between 0.9 and 1 brighter than any dark tile, whatever the two shimmer phases |
| TriTile.BlendBounds | scenes/TriTile.js:104-129 | a tile's blend factor lies in (-0.65, 1.4] for a bass in [0, 1]; a dark tile at a bass of 0.6 or more stays in [0, 0.45], and below that floor a dark tile goes negative once the pulse outweighs its shimmer |
| TriTile.TileIndex | scenes/TriTile.js:49-75 | tile 44 y + x of the row-by-row numbering is in column x and row y |
| TriTile.TriTileScene.PlaceTile | scenes/TriTile.js:52-69 | the nine coordinates of tile (x, y) are written from entry 9 (44 y + x) on, and no other entry changes |
| TriTile.TriTileScene.PlaceRow | scenes/TriTile.js:51-76 | one row of the grid loop writes the coordinates of the 44 tiles of row y and nothing else |
| TriTile.TriTileScene.constructor | scenes/TriTile.js:16-86 | every tile's triangle in place row by row, every tile dark with its shimmer phase 2 pi times its draw, every vertex in the background colour, the group at the origin and visible |
| TriTile.TriTileScene.Flash | scenes/TriTile.js:108-116 | exactly the tiles picked by one of the frame's FlashCount(treble) draws get life 1; every other tile keeps its life |
| TriTile.TriTileScene.ShadeTile | scenes/TriTile.js:119-133 | one pass of the colour loop fades tile i and gives its three vertices the same blend, life plus shimmer plus bass pulse; nothing else changes |
| TriTile.TriTileScene.Update | scenes/TriTile.js:93-136 | the group drifts to (10 sin(0.1 t), 10 cos(0.08 t)) times the mid speed; every tile's life is the fade of 1 if a draw picked it and of its old life otherwise; every vertex's blend is its tile's life plus shimmer plus map(bass, 0.6, 1, 0, 0.4) |
| TriTile.TriTileScene.Show | scenes/TriTile.js:142-144 | the tiles become visible; nothing else of the scene changes and its invariant is kept |
| TriTile.TriTileScene.Hide | scenes/TriTile.js:146-148 | the tiles are hidden; nothing else of the scene changes and its invariant is kept |
| WavyLines.LineDepths | scenes/WavyLines.js:43 | line i sits i / 4 behind the origin, so the twenty depths lie in (-5, 0] |
| WavyLines.CentresSpread | scenes/WavyLines.js:79 | line centres start at -verticalRange and climb in steps of a tenth of it; for a non-negative range all twenty lie in [-range, range) |
| WavyLines.PointNearCentre | scenes/WavyLines.js:83-91 | every point of line i lies within the wave amplitude plus half the noise of the line's centre |
| WavyLines.LinesStayInView | scenes/WavyLines.js:69-91 | with mid and treble in [0, 1] and a view at least 5 high, every point lies within half the view's height: the 2.5 margin covers the largest wave and glitch |
| WavyLines.WavyLinesScene.constructor | scenes/WavyLines.js:35-47 | twenty visible lines with zero-filled buffers, line i at depth map(i, 0, 20, 0, -5) |
| WavyLines.WavyLinesScene.Update | scenes/WavyLines.js:52-97 | exactly the first floor(map(bass, 0, 1, 1, 20)) lines are visible, each rewritten with 121 points across the view's width around its centre; the others keep their buffers |
| WavyLines.WavyLinesScene.Show | scenes/WavyLines.js:111-113 | the scene becomes visible; nothing else of the scene changes and its invariant is kept |
| WavyLines.WavyLinesScene.Hide | scenes/WavyLines.js:118-120 | the scene becomes invisible; nothing else of the scene changes and its invariant is kept |
| WavyLinesV2.OverwriteForgets | scenes/WavyLinesv2.js:63-65 | an attack above its threshold sets the envelope to attack * gain whatever it held, one at or below leaves it; an envelope in [0, gain] stays there through a trigger and a decay |
| WavyLinesV2.PointNearKickedCentre | scenes/WavyLinesv2.js:91-99 | every point lies within twice the bass envelope plus the amplitude plus half the noise of its line's resting centre; with no bass envelope, or for line 0, there is no kick |
| WavyLinesV2.WavyLinesScene.constructor | scenes/WavyLinesv2.js:19-53 | twenty visible, zero-filled lines at their depths, all three envelopes 0 |
| WavyLinesV2.WavyLinesScene.DrawLines | scenes/WavyLinesv2.js:76-108 | exactly the first numLines lines are visible, each rewritten with kicked centres; the others keep their buffers |
| WavyLinesV2.WavyLinesScene.Trigger | scenes/WavyLinesv2.js:63-65 | each envelope is overwritten by its attack times its gain when the attack passes 0.1, 0.1 or 0.08 |
| WavyLinesV2.WavyLinesScene.Update | scenes/WavyLinesv2.js:58-116 | the envelopes are triggered, the lines drawn with the mid envelope added to the amplitude, the treble envelope to the noise and the bass envelope as the kick, then the envelopes decay by 0.90, 0.85 and 0.80 |
| WavyLinesV2.WavyLinesScene.Show | scenes/WavyLinesv2.js:130-132 | the scene becomes visible; nothing else of the scene changes and its invariant is kept |
| WavyLinesV2.WavyLinesScene.Hide | scenes/WavyLinesv2.js:137-139 | the scene becomes invisible; nothing else of the scene changes and its invariant is kept |
| WireframeMirrorball.Pick | scenes/WireframeMirrorball.js:119 | a draw in [0, 1) picks a panel index in [0, 80) |
| WireframeMirrorball.FadeKeepsLevel | scenes/WireframeMirrorball.js:125-136 | a panel that is dark or lit in [0.01, 1.2] stays so through the decay, keeps at most 92% of its light, and goes dark (emissive black) only from below 0.01 / 0.92 |
| WireframeMirrorball.FlashedPanelLit | scenes/WireframeMirrorball.js:116-122 | a flash keeps every panel at its level; a panel one of the 24 draws hits is at 1.2 and still lit at 1.2 * 0.92 after the decay, one no draw hits is unchanged |
| WireframeMirrorball.RaysBounded | scenes/WireframeMirrorball.js:139-147 | for levels in [0, 1] every ray is 5 to 50 long and shows with a chance between 0.1 and 1, always at full treble |
| WireframeMirrorball.WireframeMirrorballScene.constructor | scenes/WireframeMirrorball.js:15-97 | every panel dark with a black emissive, every ray of length 1 and shown, camera.far remembered |
| WireframeMirrorball.WireframeMirrorballScene.Flash | scenes/WireframeMirrorball.js:117-121 | each panel hit by one of the 24 draws is at 1.2, every other panel is unchanged |
| WireframeMirrorball.WireframeMirrorballScene.FadePanel | scenes/WireframeMirrorball.js:126-135 | panel i decays by 0.92 and goes dark below 0.01, its emissive showing its light before the decay; no other panel changes |
| WireframeMirrorball.WireframeMirrorballScene.FadeAll | scenes/WireframeMirrorball.js:125-136 | every panel decays as FadePanel says |
| WireframeMirrorball.WireframeMirrorballScene.CastRays | scenes/WireframeMirrorball.js:139-147 | every ray has the bass length and is shown iff its draw is below the treble chance |
| WireframeMirrorball.WireframeMirrorballScene.Update | scenes/WireframeMirrorball.js:103-155 | the ball turns by the mid-driven steps with the wireframe and rays copying its rotation; panels are flashed when max(bassAttack, trebleAttack) > 0.15 and then decayed; rays are cast; the ray brightness is map(bass, 0.7, 1, 1, 2) |
| WireframeMirrorball.WireframeMirrorballScene.Show | scenes/WireframeMirrorball.js:168-172 | the ball is visible and camera.far is 1000; nothing else of the camera changes; nothing else of the scene changes and its invariant is kept |
| WireframeMirrorball.WireframeMirrorballScene.Hide | scenes/WireframeMirrorball.js:174-178 | the ball is hidden and camera.far is back to the value found at construction; nothing else of the scene changes and its invariant is kept |
| WireframeMirrorball.WireframeMirrorballScene.Dispose | scenes/WireframeMirrorball.js:203-204 | camera.far is back to the value found at construction; nothing else of the camera changes |

## Left out

- Rendering: every three.js, WebGL and p5.js call is left out, because it belongs to a foreign library. This covers geometry and material creation, `needsUpdate` flags, `lookAt`, quaternions, `setMatrixAt`, `updateProjectionMatrix`, textures and `dispose`. The camera values that `show`, `hide` and `dispose` restore are modelled.
- Colours: colour objects and `updateForegroundColor` are left out in every scene except Pulsing3DGrid. Each is a write into a library object with nothing to state beyond the write.
- Arithmetic: numbers are Dafny reals, so IEEE-754 rounding, NaN and Infinity are not modelled. `Math.floor(n * 0.2)` and `Math.floor(n * 0.5)` in `main.js` are integer division.
- Math functions: `Math.sin`, `Math.cos`, `Math.tan`, `Math.sqrt` and `Math.acos` are uninterpreted function parameters. Lemmas assume only `sin` and `cos` in [-1, 1], where they need it.
- Randomness: `Math.random()` draws are parameters in [0, 1). Their distribution is not modelled.
- Shaders: the GLSL strings, `shaders/FadeShader.js` and `shaders/StrobeShader.js` are GPU code. Only the uniform values are modelled (ReactiveSmoke, DeepSea).
- Plumbing: audio capture, the DOM, event wiring and timers are left out, because they are I/O. This covers `main.js` `init`, `startAudio`, `onWindowResize`, `animate` and postprocessing; `sketch.js` `setup`, `windowResized`, `drawScene1` and `Particle.draw`; and `worker.js`.
- Canvas textures: `createStarTexture`, `createFontAtlas`, the label canvases of AudioGraph, the circle texture of Pulsing3DGrid and DeepSea's surface shader are left out, because they draw pixels.
- Other scenes: ProjectedOrbs, SolarSystem, ArticulatedArm, RotatingRings, RoughSpeakers, WarpingGrid, PulsingPolygon and ASCIIDance are not part of this model. Each writes `map` results, trig values or noise straight into library objects. ProjectedOrbs also depends on raycaster hits.
- The scene slot manager and loader that would drive the Transitioner are not part of this model. They are not in the repository's shown files.
- Initial directions: the random initial directions of the WireframeMirrorball rays are not modelled, because they are quaternions. The random window placement of ElevatorShaft is not modelled either, beyond the window count.
- CurveRacer: the Catmull-Rom curve is a parameter. Both the course samples and `getPointAt` are supplied by the caller.
- DigitalCurtain: `bassAttackEffect` is declared in the source but never read, so it is not modelled.
- HeavyRain: the drops' `lookAt` orientation is not modelled.
- Utils.Map requires start1 != stop1. The source would divide by zero and yield NaN or Infinity, and every call site passes distinct bounds.
- Transitions.Transitioner.Update requires duration > 0. The source divides by the duration unguarded; see the opening section.
- MainScript.Visualizer.UpdateAudio requires at least 2 spectrum bins once the analyser exists. With one bin the mid divisor is 0 and the source yields NaN. `main.js` sets fftSize to 256, which gives 128 bins.
- CurveRacer.CurveRacerScene.Update requires mid in [0, 1]. The levels come from the analyser, which keeps them there (MainScript.LevelsInUnit), and the wrap invariant on progress needs it.
- ElevatorShaft.ElevatorShaftScene.Update requires mid in [0, 1], for the same reason: the segment wrap keeps y in [-25, 25) only while a step is at most 50.
- InfiniteTunnel.InfiniteTunnelScene.Update requires mid in [0, 1], for the same reason: a ring is sent back by one tunnel depth, which keeps it in the tunnel only for steps of at most 100.
- InfiniteTunnel.InfiniteTunnelScene.constructor requires camera.z >= 0. The rings start at z <= 0, in front of a camera that looks at the origin from positive z. `main.js`, for one, places its camera at z = 10.
- MirroredLake.MirroredLakeScene.Update requires mid in [0, 1], which keeps the star drift below the wrap height. It also requires that the mountain does not use exactly one bin: `map(i, 0, pointsToShow - 1, ...)` would divide by zero, which no real spectrum length produces.
- EchoingSemicircles.EchoingSemicirclesScene.Update requires every base vertex to lie off the centre. The source divides by each vertex's radius, and the vertices that `init` builds lie on the unit circle. The model takes `Math.sqrt` as a parameter, so it cannot derive their radius itself.
- TriTile: `Math.sqrt(3)` in the triangle height is written as its double-precision value.
