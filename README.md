# A verified model of the my-home scenes and text manager

This project models, in Dafny, the logic behind the four interactive pieces of
the personal home page:

- **Text manager** (`js/text.js`): the quote ("hitokoto") and poem caches, the
  two response parsers, `callAPI`'s walk over the configured endpoints with its
  fallback, the callback registry and its notification loop, and the two fetch
  operations. Module `TextManager`, file `text_manager.dfy`.
- **Hero scene** (`sector/self/self.js`): the gradient-noise object (module
  `Noise`), the sampling of the rasterised name into particles, one frame of
  the particle field (flow noise, pointer repulsion, spring, damping, ink-to-gold
  tint) in class `HeroScene.HeroField`; and the information panel with its
  reveal queue, timers and background blur in class `InfoPanel.RevealPanel`.
- **Web scene** (`sector/web/web.js`): 3000 particles in six site clusters
  (`i % 6`), the render loop with repulsion, the last-claiming active site, the
  ×1.5 enlargement, the info box (`updateUI`) and the click guard, in class
  `WebScene.WebField`.
- **Blog scene** (`sector/blog/blog.js`): the wheel clamp to [-3800, 0], the
  0.05 smoothing of scroll and camera, the progress bar, the panel spiral at
  depth −400·i, hover and the article modal, in class `BlogScene.ScrollScene`.

Shared vector, mixing, smoothing and pointer helpers live in module `Common`.

JavaScript numbers are modelled as `real`. `Math.sqrt`, `Math.sin` and
`Math.cos` are function parameters: `Common.IsSqrt` says what a square root is,
and `Common.IsWave` bounds a wave function to [-1, 1]. `Math.random()` values
are parameters in [0, 1). The network is a given sequence of responses, one per
configured endpoint. The pointer's position in the scene and the raycaster's hit
are inputs to each frame. Timers are modelled by counting the callbacks that are
armed and letting the caller fire them.

## Model

| member | source | states |
|---|---|---|
| Common.Approach | sector/blog/blog.js:177-182 | one smoothing step `cur += (target - cur) * k` leaves the gap to the target scaled by exactly 1 − k, and for k in [0,1] the new value lies between the old value and the target |
| Common.Mix | sector/self/self.js:23 | `mix(a, b, t)` is a at t = 0 and b at t = 1, and lies between a and b for t in [0,1] |
| Common.MixBetween | sector/self/self.js:23 | the two forms of linear interpolation agree, and a weight in [0,1] stays between the end points |
| Common.Min | sector/self/self.js:229 | `Math.min` is one of its arguments and is at most both |
| Common.RandomIndex | js/text.js:75 | `Math.floor(Math.random() * n)` is a valid index into a non-empty array of length n |
| Common.RandomIndexShare | js/text.js:75 | `Math.floor(r * n)` is k exactly when r lies in [k/n, (k+1)/n), so every entry of the array gets an equal share of the random values |
| Common.ScaledBelow | js/text.js:75 | a random value in [0,1) times n lies in [0, n) |
| Common.Put | sector/web/web.js:61-63 | writing the three coordinates of point i into a flat buffer changes point i to the new value and leaves every other point as it was |
| Common.Store | sector/self/self.js:222-224 | the in-place write of one point into a `Float32Array` produces exactly `Put` of the old contents |
| Common.HeadingScales | sector/web/web.js:181-185 | `cos(atan2(dy,dx))` and `sin(atan2(dy,dx))` scaled by the distance give back dx and dy; at the origin the heading is (1, 0) |
| Common.LengthSquared | sector/self/self.js:227 | the speed computed with a square root is non-negative and squares to the sum of the squared velocity components |
| Common.PlaneDistanceSquared | sector/web/web.js:177 | the pointer distance is non-negative and squares to dx² + dy² |
| Common.PointerNdc | sector/web/web.js:127-131 | the pointer's normalised device coordinates: the window edges map to ±1 (y flipped) and a pointer inside the window maps into [-1,1] |
| Common.ScaledInUnit | sector/blog/blog.js:149-150 | a coordinate inside the window divided by the window size lies in [0,1] |
| Noise.NoiseTable.Init | sector/self/self.js:18-21 | fills `p` with `floor(random * 256)` and `perm[i]` with `p[i & 255]`, so `perm` holds bytes and its upper half repeats its lower half |
| Noise.LatticeByte | sector/self/self.js:26 | `Math.floor(v) & 255` is a byte congruent to the integer part modulo 256, also for negative v |
| Noise.CellOffset | sector/self/self.js:27 | `v - Math.floor(v)` lies in [0,1) and adds back to v |
| Noise.Fade | sector/self/self.js:24 | the quintic fade fixes 0 and 1 and maps [0,1] into [0,1] |
| Noise.FadeBounds | sector/self/self.js:24 | the fade polynomial stays in [0,1] on [0,1] |
| Noise.DotBound | sector/self/self.js:15-22 | a gradient of `grad3` dotted with an offset in the unit cube is at most 2 in size |
| Noise.HashCorners | sector/self/self.js:29-30 | every lattice hash is at most 510, so each `perm[...]` lookup, including the `+ 1` forms, is inside the 512 entries |
| Noise.CornerGradient | sector/self/self.js:31-38 | each corner's gradient index `perm[k] % 12` is valid and the corner's contribution lies in [-2,2] |
| Noise.NoiseAt | sector/self/self.js:25-39 | `noise.noise` is defined for every input and returns a value in [-2,2] |
| Noise.PermRepeats | sector/self/self.js:20 | `perm[i] == perm[i + 256]` |
| Noise.NoiseField | sector/self/self.js:25-39 | the noise function of a filled table agrees with `NoiseAt` at every point and so lies in [-2,2] everywhere |
| HeroScene.SamplePointInverse | sector/self/self.js:131-135 | the particle of pixel (x, y) determines the pixel, so distinct pixels give distinct particles |
| HeroScene.RowSamplesStep | sector/self/self.js:128-137 | one column step of the inner loop emits the pixel's particle exactly when it is opaque, before the rest of the row |
| HeroScene.SampleRowOf | sector/self/self.js:128-137 | the inner loop over every third column returns exactly that row's particles, in order |
| HeroScene.CreateTextParticles | sector/self/self.js:111-140 | the nested loop returns exactly the particles of every opaque sampled pixel, row by row |
| HeroScene.RowSamplesCount | sector/self/self.js:128 | a row from column x yields at most one particle per sampled column |
| HeroScene.RowsFromCount | sector/self/self.js:127 | the rows from y on yield at most 342 particles per sampled row |
| HeroScene.TextParticlesCount | sector/self/self.js:127-138 | the sampler emits at most 342 × 171 particles |
| HeroScene.RowSamplesSound | sector/self/self.js:128-137 | every particle of a row comes from an opaque pixel of that row on the sampling grid |
| HeroScene.RowsFromSound | sector/self/self.js:127-138 | every particle of the rows from y on comes from an opaque sampled pixel at or below y |
| HeroScene.RowSamplesComplete | sector/self/self.js:128-137 | every opaque sampled pixel of a row yields its particle |
| HeroScene.RowsFromComplete | sector/self/self.js:127-138 | every opaque sampled pixel in the rows from y on yields its particle |
| HeroScene.RowsFromStep | sector/self/self.js:127 | the particles of one row precede those of the rows below it |
| HeroScene.TextParticlesExactly | sector/self/self.js:111-140 | a sampled pixel yields a particle if and only if its alpha byte exceeds 128, and every particle comes from such a pixel |
| HeroScene.InteractionStrength | sector/self/self.js:197-202 | the strength is in (0,1] inside radius 150, zero outside it, and 1 exactly at the pointer |
| HeroScene.StrengthDecreasing | sector/self/self.js:202 | the strength never grows with distance and strictly falls inside the radius |
| HeroScene.Repulsion | sector/self/self.js:201-210 | no push outside radius 150; inside it the z push is 1.5 × strength and positive |
| HeroScene.RepulsionDirection | sector/self/self.js:203-208 | the in-plane push points away from the pointer with size 3 × strength; at the pointer itself it is (−3, 0) |
| HeroScene.RestAtOrigin | sector/self/self.js:213-220 | a particle at rest at its origin with no noise and no pointer stays there |
| HeroScene.SpringContracts | sector/self/self.js:213-224 | without noise or pointer, one frame from rest shrinks the offset from the origin by the factor 1 − 0.94 × 0.035 |
| HeroScene.DampingOnly | sector/self/self.js:218-220 | at the origin with no forces the velocity is only damped by 0.94 |
| HeroScene.PushIsAdditive | sector/self/self.js:207-220 | the pointer's push adds to the velocity, damped by 0.94, independently of the other forces |
| HeroScene.MixFactor | sector/self/self.js:229 | the tint factor is at most 1, non-negative for non-negative inputs, equals 1 exactly when `speed·0.15 + strength·0.6` reaches 1, and otherwise equals it |
| HeroScene.Tint | sector/self/self.js:231-233 | factor 0 gives ink, 1 gives gold, and a factor in [0,1] gives each channel between the two |
| HeroScene.FlowNoiseBounded | sector/self/self.js:183-186 | each of the three flow-noise samples lies in [-2,2] |
| HeroScene.HeroUpdate | sector/self/self.js:171-237 | one particle's frame keeps origin, life and offset, sets the velocity by noise, pointer, spring and damping, and moves the position by the new velocity |
| HeroScene.HeroColorInRange | sector/self/self.js:226-237 | the colour of every particle, every frame, lies channel by channel between ink and gold |
| HeroScene.PointerEffect | sector/self/self.js:193-224 | beyond radius 150 the pointer changes nothing; within it the velocity is the pointer-free one plus the damped repulsion, and it rises in z |
| HeroScene.HeroField.constructor | sector/self/self.js:55-85 | every sampled point becomes a particle at rest at its origin, coloured ink, with its random life and offset, and every size is the particle size |
| HeroScene.HeroField.Render | sector/self/self.js:158-244 | time advances by 0.002 and every particle, position and colour is replaced by its frame computed from the previous state under the noise field of the filled table |
| HeroScene.HeroField.StepParticles | sector/self/self.js:171-237 | the particle loop, under any noise bounded by [-2,2], replaces every particle, position and colour by its frame from the state at the start of the loop |
| HeroScene.StoreFrame | sector/self/self.js:222-237 | writes one particle's frame into the particle table and the position and colour buffers and changes nothing else |
| InfoPanel.TypeOf | sector/self/self.js:262-268 | item i has a type exactly when i < 4, and then it is the i-th of role, location, focus, status and no other item has that type |
| InfoPanel.EveryTypeOneItem | sector/self/self.js:262-268 | each of the four types is the type of exactly one item, so the four types clicked are the four items revealed |
| InfoPanel.BlurFor | sector/self/self.js:351-357 | the blur is in [0,12], 12 before any type is clicked and 0 once all four are |
| InfoPanel.BlurDecreasing | sector/self/self.js:351-357 | more clicked types never increase the blur, and strictly decrease it until all four are clicked |
| InfoPanel.Queued | sector/self/self.js:298 | `pendingReveals.some(entry => entry.item === item)` is true exactly when some queued entry names the item |
| InfoPanel.Drained | sector/self/self.js:316-319 | draining one more entry adds its type and item to what has been drained |
| InfoPanel.KindsOfMembers | sector/self/self.js:316-319 | a type is drained from the queue exactly when some entry carries it |
| InfoPanel.ItemsOfMembers | sector/self/self.js:316-319 | an item is drained from the queue exactly when some entry names it |
| InfoPanel.RevealHead | sector/self/self.js:316-318 | revealing the head of a sound queue keeps the rest of the queue sound and every revealed item's type clicked |
| InfoPanel.EnqueueSound | sector/self/self.js:297-300 | queueing an unrevealed, unqueued item keeps the queue free of duplicates and of revealed items |
| InfoPanel.RevealPanel.constructor | sector/self/self.js:249-263 | empty queue, nothing clicked or revealed, no timers, overlay closed, blur 12 |
| InfoPanel.RevealPanel.ShowDetail | sector/self/self.js:281-305 | both pending timers are cancelled; with a source for the type the overlay opens with its content and the item is queued once unless already revealed; otherwise nothing else changes |
| InfoPanel.RevealPanel.CancelTimers | sector/self/self.js:283-290 | the armed clear and reveal callbacks are cancelled and nothing else changes |
| InfoPanel.RevealPanel.HideDetail | sector/self/self.js:307-322 | the overlay closes and one clear and one reveal callback are armed, without cancelling earlier ones |
| InfoPanel.RevealPanel.ClearTimerFires | sector/self/self.js:310-313 | a firing clear callback empties the content and drops the clear handle |
| InfoPanel.RevealPanel.RevealItem | sector/self/self.js:324-349 | the item becomes revealed and its type clicked; the blur is recomputed from the clicked types unless both were already so |
| InfoPanel.RevealPanel.RevealNext | sector/self/self.js:316-318 | the head of the queue is removed and revealed |
| InfoPanel.RevealPanel.RevealTimerFires | sector/self/self.js:315-321 | a firing reveal callback empties the queue, revealing every queued item and clicking every queued type, and drops the reveal handle |
| InfoPanel.RevealPanel.DrainQueue | sector/self/self.js:316-319 | the `while (pendingReveals.length)` loop empties the queue and reveals exactly the queued items and types |
| InfoPanel.RevealPanel.AllRevealedClearsBlur | sector/self/self.js:351-357 | once all four items are revealed the background blur is 0 |
| TextManager.TrimStart | js/text.js:29 | drops exactly the leading white space |
| TextManager.TrimEnd | js/text.js:29 | drops exactly the trailing white space |
| TextManager.Trim | js/text.js:29 | the result is a slice of the input with only white space cut on either side, and it neither starts nor ends with white space |
| TextManager.TrimIdempotent | js/text.js:29 | trimming twice is trimming once |
| TextManager.Attribution | js/text.js:13 | the attribution is `from · from_who` when `from_who` is truthy, else `from` when truthy, else 未知; it is never empty when `from` is a string, null or undefined |
| TextManager.ParseHitokoto | js/text.js:12-15 | the quote text is the quote, then the separator ` —— `, then the attribution, which is non-empty when `from` is a string, null or undefined |
| TextManager.TrimKeeps | js/text.js:29 | trimming never cuts into a part that starts and ends with a non-white-space character |
| TextManager.ParsePoem | js/text.js:22-30 | the parser throws exactly when neither origin nor author is truthy and `content` is not a string; a parsed result is trimmed; with an origin or author it is the trimmed composition of content, line break, `—— 《origin》` and author, and the bracketed origin can be found in it; with neither it is the trimmed content |
| TextManager.FirstSuccess | js/text.js:46-70 | the chosen endpoint is the first whose attempt yields text, every earlier one failed, and there is none exactly when all fail |
| TextManager.PickFallback | js/text.js:74-76 | a fixed fallback is returned as is; a non-empty pool yields its entry at `floor(r * n)`, one of its entries; an empty pool yields `undefined` |
| TextManager.CallApi | js/text.js:45-77 | requests endpoints in order until the first success and returns its text, else requests all and returns the fallback |
| TextManager.IndexOf | js/text.js:143 | `indexOf` returns −1 exactly when the callback is absent, and otherwise its first position |
| TextManager.RemoveFirst | js/text.js:143-144 | removes the first occurrence only: one fewer copy, order kept, nothing removed when absent |
| TextManager.RegisterThenRemove | js/text.js:136-145 | registering a new callback and then removing it restores the registry |
| TextManager.ContentManager.constructor | js/text.js:4-6 | the caches start as the two loading texts and the registry is empty |
| TextManager.ContentManager.NotifyCallbacks | js/text.js:80-88 | every registered callback is called once, in order, with the text, whether or not an earlier one threw |
| TextManager.ContentManager.FetchHitokoto | js/text.js:91-103 | the quote cache becomes the first endpoint's success or the fixed fallback, every callback is told, and the poem cache and registry are untouched |
| TextManager.ContentManager.FetchPoem | js/text.js:105-116 | the poem cache becomes the first endpoint's success or, when all fail, the fallback poem at `floor(r * 5)`, and nothing else changes |
| TextManager.ContentManager.OnHitokotoUpdate | js/text.js:136-140 | a function is appended to the registry; anything else is ignored |
| TextManager.ContentManager.RemoveHitokotoCallback | js/text.js:142-145 | the first registration of the callback is removed, if present |
| WebScene.SiteOf | sector/web/web.js:46 | particle i belongs to site i % 6 |
| WebScene.SiteOfRound | sector/web/web.js:46 | the j-th particle of every round of six belongs to site j |
| WebScene.MembersRound | sector/web/web.js:44-46 | each round of six particles adds one member to every site |
| WebScene.MembersOfRounds | sector/web/web.js:44-46 | m rounds give every site m members |
| WebScene.ClusterSizes | sector/web/web.js:44-46 | each of the six clusters holds exactly 500 of the 3000 particles |
| WebScene.HexColor | sector/web/web.js:77-80 | a 24-bit site colour becomes three channels in [0,1] |
| WebScene.HexColorRoundTrip | sector/web/web.js:77-80 | the channels scaled back to bytes give the original hex colour |
| WebScene.ClusterCenter | sector/web/web.js:50-54 | every cluster centre lies within 400 of the origin on each axis, in the plane z = 0 |
| WebScene.Scatter | sector/web/web.js:57-59 | `(random - 0.5) * 300` lies in [-150, 150) |
| WebScene.Placement | sector/web/web.js:49-59 | each particle starts within 150 of its cluster's centre on each axis |
| WebScene.Force | sector/web/web.js:179-188 | inside radius 150 the force is in (0,1], equals 1 exactly at the pointer, and exceeds 0.5 exactly within distance 75 |
| WebScene.PushDirection | sector/web/web.js:179-185 | no push outside radius 150; inside it the push points away from the pointer with size 2 × force and has no z part |
| WebScene.WebRestAtOrigin | sector/web/web.js:194-201 | a particle at rest at its origin with no pointer stays at rest |
| WebScene.WebSpringContracts | sector/web/web.js:194-206 | without the pointer, one frame from rest shrinks the offset from the origin by the factor 1 − 0.9 × 0.05 |
| WebScene.WebPushIsAdditive | sector/web/web.js:184-201 | the pointer's push adds to the velocity, damped by 0.9 |
| WebScene.BelowBySquares | sector/web/web.js:179-188 | for non-negative distances a comparison of distances is the comparison of their squares |
| WebScene.WebUpdate | sector/web/web.js:161-206 | one particle's frame keeps its origin and site and moves the position by the new velocity |
| WebScene.UpdateBySquares | sector/web/web.js:175-191 | a particle claims the active site exactly when dx² + dy² < 75², and beyond radius 150 the pointer does not affect it |
| WebScene.FrameOf | sector/web/web.js:161-215 | the frame of particle j in a pass is its update from its own state alone |
| WebScene.TraceStep | sector/web/web.js:188-190 | after particle i the active site is its site if it claims, else the previous active site |
| WebScene.ProgressStep | sector/web/web.js:161-215 | one loop iteration extends the processed prefix by particle i and leaves the rest unchanged |
| WebScene.ActiveIsLastClaim | sector/web/web.js:159-190 | the active site is −1 exactly when no particle claims, and otherwise the site of the last claiming particle |
| WebScene.TracePrefix | sector/web/web.js:159-190 | the active site seen by particle k depends only on the particles before it |
| WebScene.EarlierParticlesNotEnlarged | sector/web/web.js:209-214 | particles processed before the first claim are never enlarged in that frame |
| WebScene.SizeBounds | sector/web/web.js:209-214 | a breathing size lies in [2,6], an enlarged one in [3,9], and enlargement is exactly ×1.5 |
| WebScene.WebField.constructor | sector/web/web.js:36-114 | every particle starts at rest at its placement in its site's cluster with its site's colour and size 5, and nothing is hovered |
| WebScene.WebField.Render | sector/web/web.js:145-228 | every particle and position is replaced by its frame, each size is the breathing size, ×1.5 when the particle's site was active when it was processed, the scene rotates by (0.001, 0.0005), and the info box shows the last claiming site, is closed when none claims, and keeps its text when none claims or the same site stays active |
| WebScene.WebField.StepParticles | sector/web/web.js:159-215 | the particle loop returns the last claiming site, or −1, and leaves every particle, position and size as its frame says |
| WebScene.WebField.StepParticle | sector/web/web.js:162-214 | one iteration updates particle i, its position and its size, and passes on the new active site |
| WebScene.WebField.MoveParticle | sector/web/web.js:194-206 | particle i's state and position become those of its frame and nothing else changes |
| WebScene.WebField.UpdateUI | sector/web/web.js:230-250 | the hovered index becomes the given one, the box is active exactly when a site is, it shows that site, and −1 or the same index twice leaves title, description, link and border colour as they were |
| WebScene.WebField.OnDocumentClick | sector/web/web.js:133-138 | a URL is opened exactly when a site is hovered, and it is that site's URL |
| WebScene.Spawn | sector/web/web.js:36-83 | allocates the four buffers and places every particle as the layout says |
| WebScene.Place | sector/web/web.js:61-82 | writes one particle's origin, colour, size and record and changes nothing else |
| BlogScene.ArticleTable | sector/blog/blog.js:8-17 | there are 8 articles, so the scroll limit is 3800 and the progress span 2800 |
| BlogScene.PanelLayout | sector/blog/blog.js:101-110 | panel i sits at depth −400·i, deeper panels are strictly further, consecutive ones 400 apart, all within 300 of the axis |
| BlogScene.WheelTarget | sector/blog/blog.js:136-146 | the wheel target always lies in [-3800, 0] |
| BlogScene.WheelNearest | sector/blog/blog.js:138-145 | the clamped target is the point of [-3800, 0] nearest the unclamped one, and an in-range move is kept as is |
| BlogScene.WheelDirection | sector/blog/blog.js:138 | scrolling down never moves the target back, scrolling up never moves it forward, and no scroll leaves it unchanged |
| BlogScene.ProgressWidth | sector/blog/blog.js:212-214 | the progress width is in [0,100] |
| BlogScene.ProgressAlongCorridor | sector/blog/blog.js:212-214 | along the panels the width is −scrollZ/28 percent, and past the last panel it is 100 |
| BlogScene.ProgressMonotone | sector/blog/blog.js:212-214 | scrolling further never shrinks the progress bar |
| BlogScene.Decay | sector/blog/blog.js:177 | 0.95ⁿ lies in (0,1] |
| BlogScene.SettleGap | sector/blog/blog.js:177 | after n frames with a fixed target the gap is 0.95ⁿ times the first gap |
| BlogScene.SettleBetween | sector/blog/blog.js:177 | after any number of frames the scroll lies between its start and the target |
| BlogScene.SettleShrinks | sector/blog/blog.js:177 | n smoothing frames shrink the gap as n steps of the linear recurrence g ↦ 0.95·g |
| BlogScene.ShrinkIsDecay | sector/blog/blog.js:177 | n steps of the recurrence multiply the gap by 0.95ⁿ |
| BlogScene.ShrinkBetween | sector/blog/blog.js:177 | the shrunk gap keeps its sign and never grows |
| BlogScene.ScrollScene.constructor | sector/blog/blog.js:3-30 | scroll and target start at 0, the camera at (0, 0, 1000), the pointer at (0, 0), the progress bar empty, nothing hovered, default cursor, modal closed and empty |
| BlogScene.ScrollScene.OnWheel | sector/blog/blog.js:136-146 | the target becomes the clamped wheel target and every other field, the modal's texts included, is unchanged |
| BlogScene.ScrollScene.OnMouseMove | sector/blog/blog.js:148-151 | the pointer becomes the event's normalised coordinates and every other field, cursor, progress and modal texts included, is unchanged |
| BlogScene.ScrollScene.Animate | sector/blog/blog.js:173-217 | the scroll gap shrinks by 0.95 and the scroll stays between its old value and the target, the camera z follows at 1000 + scroll within [-2800, 1000], the camera's x and y gaps to `mouse·100` shrink by 0.95, the hovered panel is the hit with a pointer cursor exactly when there is one, and the progress bar is refreshed |
| BlogScene.ScrollScene.UpdateHover | sector/blog/blog.js:188-209 | the hovered panel becomes the hit, and the cursor is a pointer exactly when something is hovered |
| BlogScene.ScrollScene.OnClick | sector/blog/blog.js:153-165 | with a hovered panel the modal opens with that article's title, date and body; otherwise the modal is untouched |
| BlogScene.ScrollScene.CloseModal | sector/blog/blog.js:60-62 | the modal closes and keeps its text, and every other field is unchanged |

## Left out

- Rendering: three.js scenes, cameras, materials, fog, the renderer, `onWindowResize` and the scene rotation's visual effect are not modelled, only the numbers the scripts compute.
- The pointer's unprojection into the scene (`vector.unproject(camera)`) and the blog raycaster are inputs: each frame takes the pointer's scene position or the hit panel.
- `Math.sqrt`, `Math.sin`, `Math.cos`, `Math.atan2` and `Math.PI` are parameters; `cos(atan2(dy, dx))` is modelled as dx/dist (and (1, 0) at the origin), which is exact over the reals.
- Floating point: `Float32Array` rounding and IEEE arithmetic are not modelled; numbers are exact reals.
- `THREE.Color`'s colour-space handling: site and ink/gold colours are plain bytes over 255.
- The canvas rasterisation of the name (`fillText`, fonts) is an input: the RGBA bytes of the 1024×512 canvas.
- `createDust`, `createArticlePanel`'s canvas drawing, `mesh.lookAt` and the gsap scale and opacity tweens of the blog panels.
- `CLUSTER_RADIUS` (web.js) is declared but never used by the source, so it has no counterpart.
- Timers are counted, not timed: `setTimeout` arms a callback that the caller fires; the 500 ms and 650 ms delays, and their order, are the caller's choice.
- InfoPanel.RevealPanel.RevealItem: the `requestAnimationFrame` callback is run at once, and the inline style freezing and the reflow are left out; the `!item` guard cannot fail because items are indices.
- The information items' `revealed` class is assumed absent when the page loads.
- JSON values: a field that is a number, boolean, object or array is `Other`, given only by its truthiness and its string form; the string form itself (`String(v)`) is an input, not computed.
- TextManager.Attribution: when `from` is truthy but not a string and its string form is empty (an empty array), the attribution is empty, as in JavaScript; non-emptiness is promised only for strings, null and undefined.
- Console logging and `fetch` headers; each endpoint's response is a given outcome (not ok, thrown, malformed JSON or a payload).
- `getCurrentHitokoto` and `getCurrentPoem` are the `currentHitokoto` and `currentPoem` fields themselves.
- `getRandomPoem` and `fetchAndCachePoems` are `FetchPoem`: their `catch` branches cannot be reached because `fetchPoem` catches everything itself.
- TextManager.ContentManager.FetchHitokoto and FetchPoem: their own `catch` branches are not modelled separately, because `callAPI` catches every parser and network error itself; the only remaining throw, a parser error, is handled inside `CallApi`.
- TextManager.ContentManager.NotifyCallbacks: callbacks are opaque identifiers; what they do is not modelled, including a callback that changes the registry while it is being walked.
- Hero and web Render loops read the whole frame from the state at the start of the frame. This is the source's behaviour, because each particle's update reads only that particle's own entries.
