# vectorclash-site, modelled in Dafny

This project models the small, discrete rules inside the vectorclash
portfolio site, a React and three.js application, and proves properties
about them. Most of the site is animation and WebGL wiring. The rules
modelled here are:

- the device performance classifier and the settings derived from its tier;
- the project navigator's state machine, and what it asks the projects
  canvas to show;
- the skill bars of the About section: the class-name encoding of a level,
  its parse, the width strings and the gradient chosen by level;
- the palette generator, the CSS gradient background and its layer list,
  and the three canvas gradient builders;
- the bookkeeping of the two three.js canvases: container children, render
  gating, the viewport test and the header's particle fields;
- the texture-change state machines of the react-three-fiber project shapes;
- the one-shot scroll trigger;
- the alternating two-line drawer.

## Modelling conventions

- **Colours.** A colour is a hue angle in [0, 360) (`Colors.Hue`). tinycolor's
  `spin(d)` is `(h + d)` wrapped into [0, 360). #CCFF00 has hue 72 and #00CCFF
  has hue 192. Saturation and lightness never change in the code modelled.
- **Hex text and lightness.** tinycolor's `toHexString` and `isLight` are
  function parameters (`toHex`, `isLight`).
- **Random draws.** Every `Math.random()` result is a parameter with
  `JsMath.IsDraw(r)`, meaning 0 ≤ r < 1.
  - `Math.round(x)` is `floor(x + 0.5)`.
  - `Math.floor(Math.random() * n)` is `JsMath.RandomIndex`.
- **Numbers.** Reals replace IEEE doubles.
- **Tweens and delayed calls.** A gsap tween or delayed call that matters for
  state is an explicit pending counter or queue, plus a method that runs its
  completion. Examples: `CompleteGrowOut`, `CompleteFade`, `CompleteTransition`,
  `RunScheduled`.
- **Mutable state.** Objects whose fields the code updates are classes:
  - the detector cache;
  - the navigator;
  - the canvases;
  - the gradient background;
  - the shapes;
  - the trigger.

  Three.js groups are `Scene.Group` objects with a `children` sequence and a
  rotation.
- **Probed inputs.** Device probing, DOM rectangles and the window are input
  records: `PerformanceDetector.Signals`, `Viewport.Element`, `Viewport.Window`.

The palette generator steps hues by a random `colorSize` in [30, 110)
(src/components/utils/GradientGenerator.js:6, 23). It does not space them
360/N apart, so the hues are not evenly spread around the circle. The model follows the code.

`CanvasLinearGradient` reads `colors.color1` unconditionally. The call
`new CanvasLinearGradient(width, height)` at src/components/three/StarField.js:13
therefore throws a TypeError. The model returns `Failure(TypeError)` when
`colors` is absent, and `CanvasLinearGradient.StarFieldCallThrows` records
that outcome.

## Model

| member | source | states |
|---|---|---|
| JsMath.Round | src/components/About.js:145 | Math.round rounds half up: the result n satisfies n − 0.5 ≤ x < n + 0.5 |
| JsMath.RandomUpTo | src/components/GradientBackground.js:22 | Math.round(Math.random()·k) is an integer in [0, k] |
| JsMath.RandomIndex | src/components/ProjectGrid.js:55-58 | Math.floor(Math.random()·n) is a valid index below n |
| JsMath.RandomRotation | src/components/utils/GradientGenerator.js:32-34 | a random rotation is a whole number of degrees in [0, 360] |
| Strings.NatToString | src/components/About.js:213 | the decimal text of a level is non-empty, all digits, has no '-' or ' ', and has no leading zero unless the level is 0 |
| Strings.DecimalRoundTrip | src/components/About.js:96 | reading back the decimal text of n gives n |
| Strings.AppendZero | src/components/About.js:105 | appending the digit "0" multiplies the denoted number by ten |
| Strings.Split | src/components/About.js:96 | split on one character gives at least one part, and no part contains the separator |
| Strings.SplitJoin | src/components/About.js:144 | joining the parts of a split with the separator gives back the original text |
| Strings.SplitWithoutSeparator | src/components/About.js:96 | text without the separator splits into itself alone |
| Strings.SplitAfterHead | src/components/About.js:96 | a separator-free head followed by the separator becomes its own first part |
| Strings.JoinAppend | src/components/GradientBackground.js:32-39 | joining one more part appends the separator and that part |
| Colors.Spin | src/components/utils/GradientGenerator.js:8 | spin wraps into [0, 360) and equals plain addition when no wrap is needed |
| Colors.SpinCompose | src/components/three/DrawnShape.js:62 | spinning by a and then by b is spinning by a + b |
| Colors.SpinFullTurn | src/components/utils/GradientGenerator.js:23 | an extra full turn of 360 degrees changes nothing |
| Colors.Tetrad | src/components/About.js:164-166 | the tetrad has four colours; the first is the seed and each next is a quarter turn on |
| Seqs.IndexOf | src/components/three/r3f/ProjectShape.jsx:18 | indexOf is −1 exactly when the item is absent; otherwise it is the item's first position |
| Seqs.Remove | src/components/GradientBackground.js:66-68 | removeChild drops exactly one element and keeps the others in their order |
| Seqs.RemoveMultiset | src/components/GradientBackground.js:66-68 | removal takes away one occurrence of the element and nothing else |
| Css.LinearGradient | src/components/GradientBackground.js:30-39 | a gradient string starts with "linear-gradient(42deg, " and ends with ")" |
| Css.HexTexts | src/components/GradientBackground.js:33 | one hex text per colour, in the palette's order |
| Css.PercentValue | src/components/About.js:105 | a width reads as a percentage iff it is at least one digit followed by '%' |
| Css.PercentRoundTrip | src/components/About.js:105 | the decimal text of n followed by '%' reads back as n percent |
| Css.TenfoldPercent | src/components/About.js:105 | digits + "0%" denotes ten times the digits' value in percent |
| About.SkillClassName | src/components/About.js:213 | a skill row's class name starts with "skill-level-" |
| About.SizeText | src/components/About.js:96 | element 2 of the split, when present, contains no '-' |
| About.ClassNameRoundTrip | src/components/About.js:96 | splitting "skill-level-N" on "-" and taking element 2 gives the decimal text of N, which denotes N |
| About.BarWidthIsTenfold | src/components/About.js:104-105 | the full bar width of a level-N skill is 10·N percent |
| About.HalfLevel | src/components/About.js:145 | Math.round(N/2) is N/2 for even N and rounds up for odd N |
| About.HoverWidth | src/components/About.js:154 | the hover width is 10·round(N/2) percent |
| About.HoverWidthOfSeven | src/components/About.js:145-154 | a level-7 bar shrinks to "40%" |
| About.BarStyleFor | src/components/About.js:222-226 | 4 colours iff level ≥ 10, 3 iff 6..9, 2 iff ≤ 5 |
| About.BarColorsMonotone | src/components/About.js:222-226 | a higher level never gets fewer gradient colours |
| About.BarGradientColors | src/components/About.js:164-193 | each bar gradient lists the first k tetrad colours of the random seed, k = 4, 3 or 2 by level |
| About.AnimateSkills | src/components/About.js:71-79 | skill i is animated in with delay i·0.25 s, in order, one entry per row |
| About.SkillPlanForLevels | src/components/About.js:81-123 | each row's bar starts 0.25 s after its row and grows to 10·level percent |
| GradientGenerator.RandomColorRotation | src/components/utils/GradientGenerator.js:32-34 | colorRotation is an integer in [0, 360] |
| GradientGenerator.ColorSize | src/components/utils/GradientGenerator.js:6 | colorSize lies in [30, 110) |
| GradientGenerator.BaseColor | src/components/utils/GradientGenerator.js:8 | the base colour is #CCFF00 spun by a whole number of degrees in [0, 360] |
| GradientGenerator.StepAngleNext | src/components/utils/GradientGenerator.js:23 | the step angle of colour i + 1 is that of colour i plus colorSize |
| GradientGenerator.Palette | src/components/utils/GradientGenerator.js:10-27 | the palette has exactly colorNum colours, and none when colorNum ≤ 0 |
| GradientGenerator.SteppedNeighbours | src/components/utils/GradientGenerator.js:19-26 | in stepped mode each colour is the previous one spun by colorSize |
| GradientGenerator.RandomColorsAreSpunSeeds | src/components/utils/GradientGenerator.js:11-18 | in random mode each colour is the base spun by its own whole rotation in [0, 360] |
| GradientGenerator.Generator.constructor | src/components/utils/GradientGenerator.js:4-30 | the push loops build exactly the palette |
| GradientBackground.ColorAmount | src/components/GradientBackground.js:17-23 | the palette size is in [3, 6], and 3 when the coin draw is at most 0.5 |
| GradientBackground.BuildGradientString | src/components/GradientBackground.js:29-39 | the loop builds "linear-gradient(42deg, " + hexes joined by ", " + ")"; for an empty palette, the bare prefix without ")" |
| GradientBackground.Background.ChooseColors | src/components/GradientBackground.js:16-27 | a stepped (never random) palette of 3 to 6 colours becomes the colours, then updateColors runs |
| GradientBackground.Background.UpdateColors | src/components/GradientBackground.js:29-64 | the new layer is prepended; every older layer is fading and the new one is not; layer identities stay distinct; exactly one more chooseColors is scheduled |
| GradientBackground.Background.RemoveChildElement | src/components/GradientBackground.js:66-68 | exactly the given layer leaves and the rest keep their order; an absent layer changes nothing |
| GradientBackground.Background.CompleteFade | src/components/GradientBackground.js:56-57 | a finished fade removes its own layer |
| GradientBackground.UpdateThenFadeAll | src/components/GradientBackground.js:45-62 | once the fades of an update complete, only the new layer is left |
| PerformanceDetector.EffectiveCores | src/components/utils/PerformanceDetector.js:19 | a missing core count counts as 2 cores |
| PerformanceDetector.MissingCoresScoreOne | src/components/utils/PerformanceDetector.js:19-22 | a missing core count scores 1 |
| PerformanceDetector.IntelWinsOverDedicated | src/components/utils/PerformanceDetector.js:43-48 | the first matching pattern wins: a non-Apple Intel HD/UHD renderer scores 1 even if it also names NVIDIA/AMD |
| PerformanceDetector.ContainsOnLineIff | src/components/utils/PerformanceDetector.js:45 | the gap `.*` before a pattern matches iff the pattern starts at some position with no line terminator (\n, \r, U+2028, U+2029) before it |
| PerformanceDetector.LineBreakEndsGap | src/components/utils/PerformanceDetector.js:45 | after a line break the gap `.*` can no longer reach the pattern |
| PerformanceDetector.IntelBreakHDNotIntegrated | src/components/utils/PerformanceDetector.js:45 | "Intel\nHD" matches neither Intel.*HD nor Intel.*UHD, case-insensitively |
| PerformanceDetector.IntelPatternStaysOnOneLine | src/components/utils/PerformanceDetector.js:43-50 | the renderer "Intel\nHD" fails the Apple, Intel and dedicated patterns and scores 2 |
| PerformanceDetector.RawScore | src/components/utils/PerformanceDetector.js:18-57 | before the penalty the score lies in [3, 9] |
| PerformanceDetector.FinalScore | src/components/utils/PerformanceDetector.js:59-62 | the final score is in [1, 9]: the raw score off mobile, the raw score − 2 on mobile |
| PerformanceDetector.TierMonotone | src/components/utils/PerformanceDetector.js:66-72 | the tier mapping is monotone in the score |
| PerformanceDetector.MobileHighIffAllSignalsTop | src/components/utils/PerformanceDetector.js:60-72 | a mobile device is 'high' exactly when cores, memory and GPU all score 3 |
| PerformanceDetector.Detector.constructor | src/components/utils/PerformanceDetector.js:6 | the cache starts empty |
| PerformanceDetector.Detector.DetectPerformanceTier | src/components/utils/PerformanceDetector.js:8-76 | with a cached tier, that tier is returned unchanged; otherwise the step-by-step score gives the tier of the signals, which is cached |
| PerformanceDetector.DetectTwice | src/components/utils/PerformanceDetector.js:9 | two detections return the same tier whatever the second call's signals are |
| PerformanceDetector.GetParticleConfig | src/components/utils/PerformanceDetector.js:78-108 | every count lies between the low and the high numbers; an unrecognised tier gets the medium numbers |
| PerformanceDetector.ParticleConfigMonotone | src/components/utils/PerformanceDetector.js:78-108 | counts never decrease from low to medium to high |
| PerformanceDetector.ShouldEnableBloom | src/components/utils/PerformanceDetector.js:111-113 | bloom is on iff the tier is high or medium |
| PerformanceDetector.ShouldEnableAntialias | src/components/utils/PerformanceDetector.js:115-117 | antialias is on iff the tier is high, and antialias implies bloom |
| PerformanceDetector.GetGLPrecision | src/components/utils/PerformanceDetector.js:119-121 | precision is "highp" iff antialias is on, otherwise "mediump" |
| PerformanceDetector.ResolveTier | src/components/utils/PerformanceDetector.js:78 | a passed tier is used as is and leaves the cache alone; an omitted one is the cached tier, or else the detected tier of the signals, which is then cached |
| PerformanceDetector.DefaultSettings | src/components/utils/PerformanceDetector.js:78-121 | the four selectors called without a tier all follow the one cached tier, even when the signals differ between calls; so antialias implies bloom and "highp" goes with antialias |
| Canvas2D.EvenOffsetBounds | src/components/three/RandomCanvasLinearGradient.js:37 | offsets i/n strictly increase, start at 0 and reach exactly 1 at i = n |
| RandomCanvasLinearGradient.ColorAmount | src/components/three/RandomCanvasLinearGradient.js:13 | colorAmount is 2 or 3 |
| RandomCanvasLinearGradient.Build | src/components/three/RandomCanvasLinearGradient.js:4-44 | the canvas has the given size and is filled whole; the axis is horizontal at height/2; colorAmount + 1 stops at i/colorAmount, each colour #CCFF00 spun by a whole rotation; the last colour equals the first |
| RandomCanvasLinearGradient.StopsSpanUnitInterval | src/components/three/RandomCanvasLinearGradient.js:36-38 | the offsets run from 0 to exactly 1, evenly spaced and strictly increasing |
| CanvasRadialGradient.Build | src/components/three/CanvasRadialGradient.js:4-40 | the canvas has the given size and is filled whole; centred at (w/2, h/2) with radius 0 to w/2; colour stops at i/len, then a transparent stop at 1; colorAmount + 1 stops in all |
| CanvasRadialGradient.StopsIncreaseToRim | src/components/three/CanvasRadialGradient.js:31-35 | the colour offsets lie in [0, 1), and all offsets strictly increase up to the transparent rim |
| CanvasLinearGradient.Build | src/components/three/CanvasLinearGradient.js:4-42 | fails iff `colors` is missing; otherwise four stops at offsets 0, 0.35, 0.72 and 1 on a horizontal axis at height/2, coloured #CCFF00 spun by color1, color2, color3 and color1 again |
| CanvasLinearGradient.StarFieldCallThrows | src/components/three/StarField.js:13 | the call without `colors` fails with a TypeError |
| Viewport.ElementInViewport | src/components/three/ThreeProjectsCanvas.js:139-157 | the loop up the offsetParent chain computes exactly the strict-overlap test on both axes |
| Viewport.AxisOverlapSharesPoint | src/components/three/ThreeProjectsCanvas.js:151-156 | for positive sizes, the strict test holds iff the box and the window share an interior point |
| ThreeProjectsCanvas.WithoutFirst | src/components/three/ThreeProjectsCanvas.js:110-114 | removing the first child keeps the rest; an empty list stays empty |
| ThreeProjectsCanvas.ProjectsCanvas.constructor | src/components/three/ThreeProjectsCanvas.js:8-55 | doRender starts false, the tint is #00CCFF, and both containers are distinct and empty |
| ThreeProjectsCanvas.ProjectsCanvas.DeleteChild | src/components/three/ThreeProjectsCanvas.js:110-114 | the first child, if any, is removed and nothing else changes |
| ThreeProjectsCanvas.ProjectsCanvas.ClearProjects | src/components/three/ThreeProjectsCanvas.js:95-108 | a grow-out is scheduled iff there is a project; nothing is removed yet |
| ThreeProjectsCanvas.ProjectsCanvas.CompleteGrowOut | src/components/three/ThreeProjectsCanvas.js:103-105 | a completed grow-out removes whatever project is first at that moment |
| ThreeProjectsCanvas.ProjectsCanvas.AddProject | src/components/three/ThreeProjectsCanvas.js:57-83 | exactly one project is appended at once; the tint becomes #CCFF00 spun by draw·360; the old project only starts growing out |
| ThreeProjectsCanvas.ProjectsCanvas.ChangeVideo | src/components/three/ThreeProjectsCanvas.js:85-93 | at most one old video is removed; exactly one VideoShape at (70, 50) is added iff the URL is truthy |
| ThreeProjectsCanvas.ProjectsCanvas.Render | src/components/three/ThreeProjectsCanvas.js:159-171 | a frame is drawn iff doRender is set and the canvas is in view; the video container then turns by exactly the negation of the project container's step |
| ThreeProjectsCanvas.ReplaceProject | src/components/three/ThreeProjectsCanvas.js:61-78 | replacing a single project shows both until the grow-out completes, then only the new one |
| ThreeHeaderCanvas.MiddleColor | src/components/three/ThreeHeaderCanvas.js:12 | floor(len/2) is a valid index of a non-empty palette |
| ThreeHeaderCanvas.ParticleTotalUniform | src/components/three/ThreeHeaderCanvas.js:98-122 | fields of equal size hold count × size particles |
| ThreeHeaderCanvas.FieldsCounts | src/components/three/ThreeHeaderCanvas.js:94-123 | "small" adds 50 fields (25000 particles, sizes in [0.5, 1.5)); "large" adds 20 fields (100 particles, sizes in [10, 40)); any other name adds nothing |
| ThreeHeaderCanvas.HeaderCanvas.constructor | src/components/three/ThreeHeaderCanvas.js:12-72 | fog, light and wireframe box share the middle colour; the container gets exactly box, swarm, swarm, cluster |
| ThreeHeaderCanvas.HeaderCanvas.BuildParticles | src/components/three/ThreeHeaderCanvas.js:94-123 | the loops append exactly the fields for the sprite size |
| ThreeHeaderCanvas.HeaderCanvas.Render | src/components/three/ThreeHeaderCanvas.js:219-223 | a frame is drawn iff the canvas is in view |
| ProjectGrid.NextIndex | src/components/ProjectGrid.js:136-145 | next from i is (i + 1) mod n |
| ProjectGrid.PrevIndex | src/components/ProjectGrid.js:119-128 | prev from i is (i − 1 + n) mod n |
| ProjectGrid.PrevNextInverse | src/components/ProjectGrid.js:119-145 | prev after next, and next after prev, return to i |
| ProjectGrid.NextTimesCount | src/components/ProjectGrid.js:136-145 | short of the end, k nexts move exactly k places |
| ProjectGrid.NextTimesAdd | src/components/ProjectGrid.js:136-145 | a nexts then b nexts are a + b nexts |
| ProjectGrid.NextTimesFullCycle | src/components/ProjectGrid.js:136-145 | n nexts come back to the starting project, passing project 0 after n − i |
| ProjectGrid.CounterLabelParts | src/components/ProjectGrid.js:220 | the counter reads "(id+1) of n" as three words whose numbers are id + 1 ∈ 1..n and n |
| ProjectGrid.VideoChoice | src/components/ProjectGrid.js:48-63 | a video is chosen iff the project has videos and the window is wider than 600, and it is one of the project's videos |
| ProjectGrid.ProjectOverStyle | src/components/ProjectGrid.js:88-110 | the tile gradient lists the two random colours; the heading is "#454545" iff both are light, otherwise "white" |
| ProjectGrid.Grid.constructor | src/components/ProjectGrid.js:12-26 | initially isProjectActive = false and activeProjectID = null, with a canvas that does not draw |
| ProjectGrid.Grid.OnProjectClick | src/components/ProjectGrid.js:112-117 | a click opens project i |
| ProjectGrid.Grid.OnProjectPrevClick | src/components/ProjectGrid.js:119-128 | prev moves to PrevIndex and keeps the project open |
| ProjectGrid.Grid.OnProjectNextClick | src/components/ProjectGrid.js:136-145 | next moves to NextIndex and keeps the project open |
| ProjectGrid.Grid.OnProjectCloseClick | src/components/ProjectGrid.js:130-134 | close clears only isProjectActive and keeps activeProjectID |
| ProjectGrid.Grid.OnImageClick | src/components/ProjectGrid.js:154-157 | the carousel gets (activeProjectID, index) unchanged |
| ProjectGrid.Grid.OnImageOver | src/components/ProjectGrid.js:147-152 | the hovered image becomes the canvas's newest project, the tint becomes #CCFF00 spun by draw·360, and a grow-out of the previous project is scheduled iff there was one; the render flag, frame count, rotations, video container and the grid's own state are unchanged |
| ProjectGrid.Grid.ComponentDidUpdate | src/components/ProjectGrid.js:28-86 | open: video replaced by the choice, first image added with the new tint and a grow-out of the previous project iff there was one, "active" removed from every image item, canvas drawing; closed: canvas stops drawing, and children, tint, grow-outs and image items are unchanged; in both, frame count, rotations and the grid's own state are unchanged |
| ProjectShape.TextureLookup | src/components/three/r3f/ProjectShape.jsx:15-22 | null when a prop is missing or the URL is not listed; a single texture is returned unchanged for any listed URL |
| ProjectShape.LookupFirstOccurrence | src/components/three/r3f/ProjectShape.jsx:18-21 | with an array, the texture at the URL's first position is returned |
| ProjectShape.ModuleState.constructor | src/components/three/r3f/ProjectShape.jsx:7 | the flag starts false and no intro has played |
| ProjectShape.Instance.constructor | src/components/three/r3f/ProjectShape.jsx:12 | previousTextureURL starts null |
| ProjectShape.Instance.Effect | src/components/three/r3f/ProjectShape.jsx:29-88 | intro iff refs are ready and no intro has ever played; crossfade iff a previous URL was recorded and differs; both animated branches record the URL |
| ProjectShape.RunEffects | src/components/three/r3f/ProjectShape.jsx:35-55 | across any effects of any instances, the intro plays at most once |
| ProjectShape.LateInstanceNeverCrossfades | src/components/three/r3f/ProjectShape.jsx:33-56 | an instance mounted after the intro keeps previousTextureURL null and never crossfades |
| TransitionShape.Shape.constructor | src/components/three/r3f/TransitionShape.jsx:82-84 | current = next = the initial URL, not transitioning |
| TransitionShape.Shape.OnTextureURL | src/components/three/r3f/TransitionShape.jsx:118-124 | a URL equal to current or next is ignored; any other becomes next and sets transitioning; a tween starts only with a material |
| TransitionShape.Shape.CompleteTransition | src/components/three/r3f/TransitionShape.jsx:129-133 | the tween's URL becomes current, the uniform resets to 0, transitioning ends, and onLoadComplete fires if given |
| TransitionShape.Shape.OnCurrentTextureLoaded | src/components/three/r3f/TransitionShape.jsx:87-92 | loading the current texture fires onLoadComplete only when not transitioning |
| TransitionShape.ChangeAndComplete | src/components/three/r3f/TransitionShape.jsx:118-135 | one change and its completion leave the shape at rest on the new URL |
| TransitionShape.NoMaterialStaysTransitioning | src/components/three/r3f/TransitionShape.jsx:124 | without a material nothing is scheduled and the shape stays transitioning |
| DetectIfVisible.Trigger.constructor | src/components/utils/DetectIfVisible.js:2-8 | exactly one scroll listener is registered |
| DetectIfVisible.Trigger.CheckIfVisible | src/components/utils/DetectIfVisible.js:10-18 | fires iff rect.y < innerHeight − 100; the listener is removed before the callback; a failed check changes nothing |
| DetectIfVisible.Trigger.OnScroll | src/components/utils/DetectIfVisible.js:7 | a scroll reaches the check only while the listener is registered |
| DetectIfVisible.CallbackCount | src/components/utils/DetectIfVisible.js:13-16 | a trigger has called back never while listening and exactly once afterwards |
| DetectIfVisible.ScrollMany | src/components/utils/DetectIfVisible.js:7-18 | over any scroll sequence the callback runs at most once, at the first visible event |
| DrawnShape.SegmentHueStep | src/components/three/DrawnShape.js:62 | each segment's hue is the previous one's plus 5 degrees |
| DrawnShape.ExtendPath | src/components/three/DrawnShape.js:46-58 | a segment from the path's end to a vertex extends the chained path |
| DrawnShape.Shape.constructor | src/components/three/DrawnShape.js:7-42 | the first segment starts at the origin, goes to a vertex, has hue #00CCFF + 5, and is drawn by line one; one call is pending |
| DrawnShape.Shape.DrawLine | src/components/three/DrawnShape.js:44-75 | the segment runs from the old start to a random vertex; its line alternates; the hue moves 5°; one more call is scheduled |
| DrawnShape.Shape.RunScheduled | src/components/three/DrawnShape.js:74 | a scheduled call draws one segment and leaves exactly one call pending |
| DrawnShape.DrawMany | src/components/three/DrawnShape.js:44-75 | over any number of calls the segments form one path from the origin, each 5° on from the last |

## Left out

- gsap easing, durations, staggers, yoyo and repeats are left out. A tween is an explicit completion method only where its completion changes modelled state.
- Three.js scene assembly, camera and renderer setup, resize handlers and the scroll-to-camera formulas are left out. They are geometry on floating point with no discrete rule.
- Canvas pixels, the star sprites and `drawImage` compositing are left out. Only stop lists, axes and fill rectangles are modelled.
- tinycolor's hex text and `isLight` are opaque function parameters. Hue arithmetic is exact on reals, and doubles are not modelled.
- The user-agent and renderer tests fold case for ASCII letters only. That covers every pattern the classifier matches.
- Device and DOM probing are input records, not live navigator or DOM calls. This covers the navigator fields, WebGL contexts and getBoundingClientRect.
- PerformanceDetector.Detector.DetectPerformanceTier: the `console.log` is left out. No code in the site calls the four tier selectors, so no caller of them is modelled. Their no-argument forms are modelled by `ResolveTier` and `DefaultSettings`.
- ThreeHeaderCanvas.HeaderCanvas.constructor: the fog's distances and the light's intensity are not modelled, only their colour.
- ThreeHeaderCanvas.HeaderCanvas.BuildParticles: `animateParticles` is a tween and is left out.
- ThreeProjectsCanvas.ProjectsCanvas.AddProject: the project-text border colour is left out. The clear colour and the fog share the tint field.
- ThreeProjectsCanvas.ProjectsCanvas.constructor: the initial fog colour (#FB0097) is left out. The tint starts at the clear colour.
- ProjectShape.Instance.Effect: the fade-back-in tween inside the crossfade's completion is left out. The crossfade decision is modelled.
- ProjectShape.TextureLookup: a URL prop is a string or absent. Non-string truthiness is not modelled.
- TransitionShape.Shape.OnCurrentTextureLoaded: reads the transitioning flag as it stands when the load finishes. The stale closure copy React would hold is not modelled.
- The shader and noise in TransitionShape are left out. The uniforms are updated only when the textures change.
- The About section's `animateMe`, `animateAbout` and SplitText line animations are left out. They are random tween targets.
- The grid fade-ins and the `gsap.set` calls on DOM elements in ProjectGrid are left out. `onResize` is left out too.
- GradientBackground.Background.UpdateColors: the delay before the next chooseColors (5 + random·10 s) is left out. The scheduling is modelled as a counter.
- DrawnShape.Shape.DrawLine: the line's own draw animation (DrawnLine.js) is not part of this model.
- The remaining React components, the r3f scene files and the other shape classes are not part of this model. They are presentational wiring.
