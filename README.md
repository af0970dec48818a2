# pfiiive compositor and producers, modelled in Dafny

pfiiive renders an offscreen "producer" canvas (a p5 sketch or a three.js
scene) through a CRT shader. The model covers five parts of it.

- **The compositor loop (js/skin.js and its older variant example/js/skin.js).**
  - A ping-pong pair of render targets, `texA`/`fbA` and `texB`/`fbB`, holds the last output for the persistence effect.
  - A `flip` flag chooses which texture a frame reads and which framebuffer it writes.
  - `resize` deletes the old targets before it allocates new ones at the canvas size.
  - In js/skin.js an `isResizing` guard makes a frame only re-register.
  - A console API (`CRTParams`) edits the shader parameters.
- **The producers (js/producers/).** Each has a `running` flag and at most one pending animation-frame registration.
- **The producer swap (future/js/skin_adapter_example.js).** It stops the current producer, creates and starts a new one, then resyncs the skin size.
- **The helpers of example/utils.js.** These are `clamp`, `lint`, `mix`, `smoothstep`, `strToColor` with JavaScript's `parseInt`, and the quote- and escape-aware command-line tokenizer.
- **The fit rule of js/p5_sketches/load_svg.js.**

## How the model is built

- **WebGL objects are handles** in a `GlState` value (module `Gpu`).
  - A texture carries its size and a live bit.
  - A framebuffer carries the handle it was given as its colour attachment, and a live bit.
  - Each GL call is a function on `GlState`.
  - What a skin does is recorded in a `trace` of events: guard set and cleared, deletes, creates, upload, draw, blit, frame request. Ordering claims are stated on the trace.
- **The skins are classes** (`Skin.CrtSkin`, `ExampleSkin.BasicSkin`).
  - The fields are those the source reassigns.
  - The `ping` record is a `PingPong.Ping` value that the skin reassigns.
  - Two ghost fields make alternation provable: `rendered` counts rendered frames, and `lastWritten` is the texture the last frame wrote. `Valid()` keeps `flip` equal to "an odd number of frames rendered" and keeps `lastWritten` equal to the texture the next frame reads.
- **`requestAnimationFrame` is a set of pending registrations** per producer.
  - A request adds a fresh positive id.
  - `cancelAnimationFrame` removes an id.
  - The host firing an id removes it and runs the callback (`Fire`).
- **Host values are parameters:** `devicePixelRatio`, `innerWidth`/`innerHeight`, `performance.now()`, the producer's canvas, `Math.random()` draws and the three.js envelope.
- **JavaScript `NaN` is `None`** in the helpers, where `parseInt` can fail.

js/skin.js:179-181 does not clamp the delta time; the model follows the code: `Skin.FrameUniforms` sets `deltaTime` to exactly (now − lastTime)/1000.

## Model

| member | source | states |
|---|---|---|
| Gpu.CreateRenderTexture | js/skin.js:48-57 | a handle never used before, now a live texture of exactly the requested size; every existing object unchanged; the call never throws and records the creation of that texture |
| Gpu.CreateFramebuffer | js/skin.js:59-65 | a handle never used before, now a live framebuffer; the call throws exactly when the argument is a framebuffer rather than a texture or null (the WebIDL TypeError of framebufferTexture2D); the attachment is the handle passed in, or nothing when it threw; every existing object unchanged; the recorded event carries the resulting attachment |
| Gpu.DeleteTexture | js/skin.js:141-142 | a texture handle becomes dead and keeps its size; null or a non-texture is ignored; no other object changes; the deletion is recorded either way |
| Gpu.DeleteFramebuffer | js/skin.js:143-144 | a framebuffer handle becomes dead and keeps its attachment; null or a non-framebuffer is ignored; no other object changes; the deletion is recorded either way |
| Viewport.Dpr | js/skin.js:131 | DPR lies in (0, 2]; a zero ratio (falsy) falls back to 1; ratios up to 2 pass through; larger ones become 2 |
| Viewport.CanvasSize | js/skin.js:132-137 | at ratio 1 the canvas size is the floored CSS size; a CSS size below one pixel gives 0 at every ratio |
| Viewport.CanvasSizeBounds | js/skin.js:132-137 | canvas size is floor(floor(css) × DPR): at most the device-pixel size, and less than one pixel below it |
| Viewport.VirtualResolutionRecoversCss | js/skin.js:222 | width / DPR is within one device pixel of the floored CSS width, never above it |
| PingPong.Advance | js/skin.js:195-197 | flip false: read texA, write fbB; flip true: read texB, write fbA; flip negated exactly once; targets untouched |
| PingPong.PrevTexOf | js/skin.js:195 | the texture read is texA or texB; when they differ it is texB exactly when flip is set |
| PingPong.CurrFbOf | js/skin.js:196 | the framebuffer written is fbA or fbB; when they differ it is fbA exactly when flip is set |
| PingPong.FlipKeepsTargets | js/skin.js:197 | negating flip keeps all four targets live, sized and paired |
| PingPong.FeedbackAlternates | js/skin.js:195-197 | with fbA on texA and fbB on texB, the texture written by a frame is the one the next frame reads; consecutive frames write different framebuffers; no frame reads the texture it writes |
| PingPong.MisattachedFbBBreaksFeedback | js/skin.js:149 | if fbB is not attached to texB, a flip-false frame writes fbB, yet the next frame reads texB, which did not receive that image |
| PingPong.ReleaseThenAllocOrdered | js/skin.js:140-149 | deletions followed by creations never have a delete after a create |
| PingPong.ReleaseThenFourOrdered | js/skin.js:140-149 | the release events followed by four non-delete events, appended one call at a time, are that concatenation, and no delete follows a create |
| PingPong.Release | js/skin.js:140-145 | the four old targets are deleted only when texA is non-null; otherwise the GL state is unchanged; no other object changes; the events are the four deletions in call order, or none |
| PingPong.Reallocate | example/js/skin.js:99-103 | (corrected js/skin.js:140-149) old targets released first, if texA exists; the new targets are four fresh handles, live, both textures width × height, fbA on texA and fbB on texB; flip kept; other objects unchanged; the events, appended after each GL call, are the releases then the four creations, with no delete after a create |
| PingPong.ReallocateAsWritten | js/skin.js:140-149 | as written: fbB is created with the old fbB as its argument. On the first resize (old fbB null) the new fbB exists with no attachment, so the pair is not paired. From the second resize on the call throws exactly when the old fbB is non-null: ping.fbB keeps the old, now deleted framebuffer, and a stray unattached framebuffer is left live |
| CrtParams.RasterModeOf | example/js/skin.js:128 | raster mode 0/1/2 is scanline/subpixel/pixel, each exactly at its number; any other integer names no mode |
| CrtParams.RasterModeSelected | js/skin.js:255 | after setRasterMode(m), with m inside the int32 range: scanline exactly for −1 < m < 1, subpixel for 1 ≤ m < 2, pixel for 2 ≤ m < 3, and no mode outside (−1, 3) |
| CrtParams.Trunc | js/skin.js:255 | truncation toward zero: within one of x, on the side of zero |
| CrtParams.ToInt32 | js/skin.js:255 | the bitwise-or `m` with 0 is the unique signed 32-bit value congruent to trunc(m) modulo 2^32 |
| CrtParams.ToInt32InRange | js/skin.js:255 | values whose truncation is already in 32-bit range keep it |
| CrtParams.RasterModeFloors | js/skin.js:255 | setRasterMode(m) stores floor(m) for non-negative m below 2^31 |
| CrtParams.ToInt32Idempotent | js/skin.js:255 | truncating to int32 twice equals truncating once |
| Skin.FrameUniforms | js/skin.js:179-222 | uResolution is the canvas size; uTime is seconds since start; uDeltaTime is seconds since the previous rendered frame, not clamped; DPR and params are passed through |
| Skin.Uniforms.NoiseScale | js/skin.js:218-220 | uNoiseScale × 512 is three quarters of the canvas size on each axis; non-negative for a non-negative canvas |
| Skin.Uniforms.VirtRes | js/skin.js:222 | uVirtRes × DPR is the canvas size on each axis |
| Skin.VirtResRecoversCss | js/skin.js:222 | after a resize to a CSS size, uVirtRes lies at or below the floored CSS size and less than one device pixel (1/DPR CSS pixels) below it, on each axis |
| Skin.GuardedRelease | js/skin.js:130-150 | wrapping in the guard keeps "no delete after a create" |
| Skin.ResizeDeletesBeforeCreating | js/skin.js:140-149 | in every guarded resize, whatever the handles, no deletion follows a creation |
| Skin.CrtSkin.constructor | js/skin.js:154-172 | start-up: a null ping pair, a first guarded resize, start = lastTime = now, flip false, one frame requested; the invariant holds (with line 149 corrected, see Findings) |
| Skin.CrtSkin.Resize | js/skin.js:129-151 | the guard is set first and cleared last, each recorded where it happens. DPR and canvas size come from the window. The old targets are released if they exist. The new targets are fresh and sized to the canvas, with fbA on texA and fbB on texB (line 149 corrected, see Findings). flip is kept. The trace gains exactly the guard set, the release and create events in call order, and the guard cleared |
| Skin.CrtSkin.SetGuard | js/skin.js:130 | isResizing takes the given value, and the trace records the guard being set or cleared at that point |
| Skin.CrtSkin.ResizeAsWritten | js/skin.js:129-151 | as written. The first resize ends with fbA on texA, fbB unattached and the guard cleared. From the second resize on (old fbB non-null) the TypeError leaves resize before the guard is cleared: isResizing stays set, ping.fbB keeps the deleted framebuffer, and the trace holds the guard set, the releases and the four creations but no guard cleared; the state still admits another resize, which throws again |
| Skin.CrtSkin.Frame | js/skin.js:173-250 | the guard branch is reachable (after a throwing resize): there only a frame request, nothing else changes. Otherwise: everything Render states, then a frame request. The invariant is kept whenever it held. Stated for the invariant, which the resize keeps only with line 149 corrected (see Findings) |
| Skin.CrtSkin.Render | js/skin.js:178-249 | lastTime = now, the upload happens only with a canvas, the source content is kept without one, flip is negated once and the uniforms are those of this frame. The draw reads the texture the previous rendered frame wrote and writes the other texture, through the framebuffer attached to it; then a blit. Stated for the invariant, which the resize keeps only with line 149 corrected (see Findings) |
| Skin.CrtSkin.SetRgbShift | js/skin.js:254 | only rgbShift changes; callable at any time, also under the guard, and the invariant is kept when it held |
| Skin.CrtSkin.SetRasterMode | js/skin.js:255 | only rasterMode changes, to the int32 truncation of m; callable at any time, also under the guard, and the invariant is kept when it held |
| Skin.CrtSkin.SetTint | js/skin.js:256 | the whole tint is replaced; nothing else changes; callable at any time, also under the guard, and the invariant is kept when it held |
| Skin.CrtSkin.Amber | js/skin.js:257 | only tint (1, 0.73, 0.2) and chroma 0.35 change; callable at any time, also under the guard, and the invariant is kept when it held |
| Skin.CrtSkin.Green | js/skin.js:258 | only tint (0.65, 1, 0.65) and chroma 0.35 change; callable at any time, also under the guard, and the invariant is kept when it held |
| Skin.CrtSkin.Rgb | js/skin.js:259 | only tint (1, 1, 1) and chroma 1 change; callable at any time, also under the guard, and the invariant is kept when it held |
| ExampleSkin.FrameUniforms | example/js/skin.js:164-169 | uResolution is the canvas size and uTime is seconds since start; there is no delta time |
| ExampleSkin.BasicUniforms.VirtRes | example/js/skin.js:169 | uVirtRes × DPR is the canvas size on each axis |
| ExampleSkin.VirtResRecoversCss | example/js/skin.js:169 | after a resize to a CSS size, the virtual grid lies at or below the floored CSS size and less than one device pixel (1/DPR CSS pixels) below it, on each axis |
| ExampleSkin.BasicSkin.constructor | example/js/skin.js:119-135 | defaults: rasterMode 0 (scanline), tint white, brightness 1, and the rest as listed. Then a first resize, start = now, flip false, one frame requested |
| ExampleSkin.BasicSkin.Resize | example/js/skin.js:88-104 | no guard. Old targets are released only if texA exists, then fresh targets are created at canvas size with fbA on texA and fbB on texB. No delete follows a create in the new events |
| ExampleSkin.BasicSkin.Frame | example/js/skin.js:136-193 | every call renders: upload only with a canvas; flip false reads texA and writes fbB, flip true reads texB and writes fbA; flip negated once; the texture read is the one the previous frame wrote |
| ExampleSkin.BasicSkin.SetRasterMode | example/js/skin.js:198 | only rasterMode changes, to the int32 truncation of m; the invariant is kept when it held |
| ExampleSkin.BasicSkin.SetTint | example/js/skin.js:199 | the whole tint is replaced; the invariant is kept when it held |
| ExampleSkin.BasicSkin.Amber | example/js/skin.js:200 | only tint and chroma change; the invariant is kept when it held |
| ExampleSkin.BasicSkin.Green | example/js/skin.js:201 | only tint and chroma change; the invariant is kept when it held |
| ExampleSkin.BasicSkin.Rgb | example/js/skin.js:202 | only tint and chroma change; the invariant is kept when it held |
| Utils.Clamp | example/utils.js:22-28 | with min ≤ max the result lies in [min, max]; x at or below min gives min (even for inverted bounds); otherwise x at or above max gives max, and x strictly inside is returned unchanged |
| Utils.ClampIdempotent | example/utils.js:22-28 | clamping twice equals clamping once, when min ≤ max |
| Utils.ClampInvertedBounds | example/utils.js:22-28 | with max < min, anything above min gives max |
| Utils.Lint | example/utils.js:30-32 | t = 0 gives a, t = 1 gives b, equal ends give that end |
| Utils.LintBetween | example/utils.js:30-32 | for t in [0, 1] the result lies between a and b |
| Utils.LintSymmetric | example/utils.js:30-32 | lint(a, b, t) = lint(b, a, 1 − t) |
| Utils.Mix | example/utils.js:34-39 | alpha 1 gives c1, alpha 0 gives c2, equal colours stay |
| Utils.MixIsLint | example/utils.js:34-39 | each channel of mix is lint from c2 to c1 by alpha |
| Utils.Smoothstep | example/utils.js:41-44 | NaN exactly when min = max = value. Otherwise the result lies in [0, 1]; for min < max it is 0 at or below min and 1 at or above max |
| Utils.RampBounds | example/utils.js:43 | x²(3 − 2x) maps [0, 1] into [0, 1] |
| Utils.RampMonotone | example/utils.js:43 | x²(3 − 2x) is non-decreasing on [0, 1] |
| Utils.SmoothstepMonotone | example/utils.js:41-44 | for min < max, smoothstep is non-decreasing in value |
| Utils.RampSymmetric | example/utils.js:43 | x²(3 − 2x) + (1 − x)²(3 − 2(1 − x)) = 1: the ramp is point-symmetric about (1/2, 1/2) |
| Utils.SmoothstepSymmetric | example/utils.js:41-44 | for min < max, mirroring the value about the middle of the bounds mirrors the result about 1/2 |
| Utils.SmoothstepMidpoint | example/utils.js:41-44 | for min < max, half-way between the bounds gives exactly 1/2 |
| Utils.TrimStart | example/utils.js:47 | parseInt's leading-whitespace skip: what is removed is whitespace, what remains starts with a non-space |
| Utils.HexPrefixLength | example/utils.js:47 | the longest prefix of hexadecimal digits |
| Utils.SplitSign | example/utils.js:47 | one leading '+' or '-' is removed; negative exactly on '-' |
| Utils.StripHexPrefix | example/utils.js:47 | a leading "0x"/"0X" is removed, and nothing else |
| Utils.LeadingHex | example/utils.js:47 | NaN exactly when no hex digit leads; values from one or two characters are below 16 or 256 |
| Utils.ParseIntHex | example/utils.js:47 | parseInt(_, 16): the empty string is NaN; a string led by two hex digits, or consisting of one, is a non-negative number |
| Utils.ParseIntHexShort | example/utils.js:47-49 | parseInt of at most two characters in base 16 is NaN or lies in [−15, 255] |
| Utils.ParseIntHexTwoDigits | example/utils.js:47-49 | two hex digits parse to their hexadecimal value |
| Utils.Substring | example/utils.js:47-49 | JavaScript substring: in-range indices give the slice; the result is never longer than the string or the index distance |
| Utils.Channel | example/utils.js:47-49 | a channel is NaN or lies in [−15/256, 255/256] |
| Utils.StrToColor | example/utils.js:46-51 | alpha is always 1; every numeric channel lies in [−15/256, 255/256], whatever the string |
| Utils.Hex2Value | example/utils.js:47 | two-digit formatting of n < 256 parses back to n |
| Utils.ChannelOfHex2 | example/utils.js:47 | a two-character field parsing to n gives channel n/256 |
| Utils.StrToColorFormatColor | example/utils.js:46-51 | round trip: "#rrggbb" built from r, g, b < 256 reads back as (r/256, g/256, b/256, 1) |
| CommandLine.TokenizeCommandLine | example/utils.js:57-122 | the character loop computes `Tokenize`: the fold of one step per character, then the final push |
| CommandLine.Step | example/utils.js:70-114 | one character pushes at most one token, and a pushed token is the current one; tokens already pushed stay; the pushed and pending characters grow by at most one |
| CommandLine.Run | example/utils.js:70-114 | the loop only appends tokens; pushed and pending characters grow by at most the input length |
| CommandLine.Finish | example/utils.js:116-119 | the final push adds the current token only when it is non-empty and no quote or escape is open |
| CommandLine.Tokenize | example/utils.js:57-122 | never more tokens than characters |
| CommandLine.Words | example/utils.js:98-104 | the maximal runs of word characters: never more than characters |
| CommandLine.RunConcat | example/utils.js:70-114 | the loop over a + b is the loop over a, then over b |
| CommandLine.QuoteMarksOnly | example/utils.js:105-109 | only ' or " ever opens a quote |
| CommandLine.PlainRun | example/utils.js:98-104 | on words and blanks, from a state holding a word, the tokens are that state's tokens followed by the words of the rest |
| CommandLine.PlainRunBlank | example/utils.js:98-104 | PlainRun's statement for a line that starts with a blank: the tokens are the held tokens followed by the words of the held word and the rest |
| CommandLine.PlainRunWord | example/utils.js:98-104 | PlainRun's statement for a line that starts with a word character: the tokens are the held tokens followed by the words of the held word and the rest |
| CommandLine.PlainLineIsWords | example/utils.js:98-104 | a line of words, spaces and tabs tokenizes to its maximal runs of word characters, so runs of blanks give no empty tokens |
| CommandLine.NoEmptyTokens | example/utils.js:98-104 | outside quotes and without newlines, no empty token is ever pushed |
| CommandLine.TokensNonEmpty | example/utils.js:98-104 | without quotes or newlines, every token is non-empty |
| CommandLine.NewlineAlwaysDelimits | example/utils.js:94-97 | outside quotes a newline pushes the current token, even an empty one |
| CommandLine.QuotedRun | example/utils.js:78-86 | inside quotes, ordinary characters (blanks and the other quote mark included) are appended as they are |
| CommandLine.QuotedSection | example/utils.js:78-86 | a quoted section is exactly one token, even when empty, and it closes only on its own quote mark |
| CommandLine.EscapedCharIsLiteral | example/utils.js:72-75 | a backslash, in or out of quotes, is dropped and the next character is appended literally |
| CommandLine.UnterminatedQuoteIsDropped | example/utils.js:116-119 | input ending inside a quote loses the unfinished token |
| CommandLine.TrailingBackslashIsDropped | example/utils.js:116-119 | input ending in a backslash loses the unfinished token |
| Three.LineY | js/producers/three_producer.js:36 | line heights lie in [−1.5, 1.5) |
| Three.Displacement | js/producers/three_producer.js:62 | a point moves down by less than 0.5, and not at all when the first draw is at most 0.9 |
| Three.DisplacedWithinBand | js/producers/three_producer.js:55-64 | after a tick every y lies in (originalY − 0.5, originalY] and x and z are unchanged |
| Three.Line.constructor | js/producers/three_producer.js:35-48 | a fresh flat line: x evenly spread over [−1.25, 1.25], y at the line height, z at 0 |
| Three.Line.Displace | js/producers/three_producer.js:59-64 | in place, only index 3j+1 of each point is rewritten, to originalY minus its displacement |
| Three.ThreeProducer.constructor | js/producers/three_producer.js:9-49 | 80 lines at their heights with distinct arrays; 640 × 400; aspect 1.6; not running; nothing pending |
| Three.ThreeProducer.GetCanvas | js/producers/three_producer.js:73 | the renderer's canvas |
| Three.ThreeProducer.GetSize | js/producers/three_producer.js:74 | the current w × h |
| Three.RenderSize | js/producers/three_producer.js:77-78 | max(min, floor(css/2)): never below the minimum; at least 2 × min of CSS size gives half of it, floored |
| Three.ThreeProducer.Resize | js/producers/three_producer.js:75-82 | w = max(320, floor(cssW/2)); h = max(200, floor(cssH/2)); aspect × h = w; dpr ignored |
| Three.ThreeProducer.Start | js/producers/three_producer.js:83-87 | while running nothing changes; otherwise running is set and exactly one frame is requested |
| Three.ThreeProducer.Stop | js/producers/three_producer.js:88-91 | running cleared and the pending frame cancelled, so nothing stays pending; a second stop changes nothing |
| Three.ThreeProducer.Tick | js/producers/three_producer.js:51-70 | not running: no change at all. Running: every line displaced in place, one render, exactly one new frame requested |
| Three.ThreeProducer.Fire | js/producers/three_producer.js:69 | a pending tick keeps the producer running with exactly one registration |
| P5.Stack | js/producers/p5_producer.js:72-75 | 80 blocks of 80 points; the first at y = 300, each 4 above the previous, the last at −16 |
| P5.P5Producer.constructor | js/producers/p5_producer.js:4-19 | not running, nothing pending; if p5 runs setup during construction (the host decides) the buffer exists and the stack is the group, otherwise there is no buffer and no blocks |
| P5.P5Producer.Setup | js/producers/p5_producer.js:65-76 | the buffer exists and the stack is appended to the group |
| P5.P5Producer.GetCanvas | js/producers/p5_producer.js:93 | null until setup has created the buffer |
| P5.P5Producer.GetSize | js/producers/p5_producer.js:94 | always 640 × 400 |
| P5.P5Producer.Resize | js/producers/p5_producer.js:95-97 | changes nothing |
| P5.P5Producer.Start | js/producers/p5_producer.js:98 | a frame is requested only when not already running |
| P5.P5Producer.Stop | js/producers/p5_producer.js:99 | running cleared and the pending frame cancelled |
| P5.P5Producer.Loop | js/producers/p5_producer.js:79-90 | always requests the next frame; draws only while running with a buffer |
| P5.P5Producer.Fire | js/producers/p5_producer.js:79-90 | a pending loop keeps the producer running with exactly one registration; it draws once if the buffer exists |
| SkinAdapter.Producer.Canvas | future/js/skin_adapter_example.js:26 | a p5 producer gives its buffer or null; a three.js producer gives its canvas |
| SkinAdapter.StartNew | future/js/skin_adapter_example.js:14-15 | "three" gives a three.js producer and any other kind a p5 producer; it is fresh, valid and running; its canvas is the renderer's or whatever p5's setup produced; the log records creation then start |
| SkinAdapter.Adapter.constructor | future/js/skin_adapter_example.js:9-10 | a fresh p5 producer is created and started; the getter gives its buffer if p5 ran setup at once, null otherwise |
| SkinAdapter.Adapter.Canvas | future/js/skin_adapter_example.js:26 | the getter reads the current producer at call time |
| SkinAdapter.Adapter.StopCurrent | future/js/skin_adapter_example.js:13 | the current producer is stopped and the stop is logged right after it |
| SkinAdapter.Adapter.SetProducer | future/js/skin_adapter_example.js:12-17 | the old producer is stopped and retired, with nothing pending. The new one, created by kind, is started, and only then is the size resynced; each step is logged right after its call. The getter now sees the new producer: the three.js canvas, or whatever p5's setup produced |
| SkinAdapter.Adapter.UseP5 | future/js/skin_adapter_example.js:21 | swaps to a running p5 producer, whose getter gives what its setup produced |
| SkinAdapter.Adapter.UseThree | future/js/skin_adapter_example.js:22 | swaps to a running three.js producer whose getter gives its canvas |
| SkinAdapter.ExactlyOneRunning | future/js/skin_adapter_example.js:12-22 | of all producers an adapter has created, exactly one is running: the current one |
| LoadSvg.CoverBranches | js/p5_sketches/load_svg.js:26-31 | a relatively wider image takes the canvas width; otherwise, equal ratios included, it takes the canvas height |
| LoadSvg.CoverDimensions | js/p5_sketches/load_svg.js:23-33 | the fitted size takes the canvas width or the canvas height |
| LoadSvg.RatioOrder | js/p5_sketches/load_svg.js:24-26 | comparing the two ratios is comparing cross products |
| LoadSvg.CoverPreservesAspect | js/p5_sketches/load_svg.js:23-33 | w / h equals the image's width / height |
| LoadSvg.CoverFits | js/p5_sketches/load_svg.js:23-33 | the result lies inside the canvas and touches it on at least one side: a contain-fit |
| LoadSvg.ProfilePlacement | js/p5_sketches/load_svg.js:36-44 | drawn only when both the buffer and the image exist, centred at (320, 200), at exactly 0.8 × the size fitted to the 640 × 400 buffer |
| LoadSvg.PlacementInside | js/p5_sketches/load_svg.js:37-44 | the drawn size keeps the aspect, stays within 80% of the buffer, and is exactly 80% of it on at least one side |
| LoadSvg.GetP5Size | js/p5_sketches/load_svg.js:54 | 640 × 400 whether or not the buffer exists |

## Left out

- **WebGL beyond object lifetimes.** Shader compilation and linking, uniform locations, `texImage2D` pixel data, `drawArrays` and `blitFramebuffer` are foreign GPU calls. They appear only as trace events.
- **Uniform pushes.** The skins record the frame-derived uniforms; they do not record each `uniform*` call.
- **Exceptions in general.** Only the TypeError of `framebufferTexture2D` with a framebuffer argument is modelled (Gpu.CreateFramebuffer returns a `threw` flag). Other GL errors are not.
- **Asynchronous start-up.** `fetch`, `Promise.all`, `loadTexture` and `Image.onload` (js/skin.js:67-93) are I/O. The skin is built from the already-loaded parameter record. The noise texture is not modelled beyond its 512-pixel size.
- **DOM plumbing.** `window.*` globals, CSS styles, `gl.viewport` and event listeners are left out. `p5Size` is read and never used by either skin.
- **Bloom passes.** None of these files implement them.
- **Producer drawing.** These calls have no contract: the three.js renderer and camera matrices, the p5 drawing calls, `p5.noise`, and each block's random peaks and counter. `Math.exp` for the envelope is a parameter constrained to [0, 1], which contains every value it produces.
- **Animation-frame ids** are per producer rather than host-wide. They start at 1, as browsers' ids are positive.
- **JavaScript numbers** are reals. Float64 rounding, `Infinity` and `NaN` propagation are not modelled: `NaN` appears only as `None` where `parseInt` or `0/0` produces it.
- **Strings** are sequences of characters. JavaScript's UTF-16 code units are not distinguished from code points.
- Utils.StrToColor: the channel range is [−15/256, 255/256] rather than [0, 255/256], because `parseInt` accepts a sign ("-f" is −15). The [0, 255/256] range holds for well-formed colours (Utils.StrToColorFormatColor).
- CrtParams.RasterModeSelected: only for m inside the int32 range. Outside it the bitwise-or wraps modulo 2^32 (CrtParams.ToInt32), and which mode results depends on that wrap.
- PingPong.ReallocateAsWritten / Skin.CrtSkin.ResizeAsWritten: the TypeError is modelled as a return with a `threw` flag. What the browser's event loop does with the uncaught exception (console report) is not modelled; the model keeps only its effect, that the rest of `resize` does not run.
- Skin.CrtSkin.constructor / Skin.CrtSkin.Frame / Skin.CrtSkin.Render: the invariant `Valid()` includes fbB drawing into texB, which only the corrected resize establishes. With js/skin.js:149 as written (Skin.CrtSkin.ResizeAsWritten), the first resize leaves fbB unattached, so a flip-false frame's image never reaches texB and the next frame does not read what the previous one wrote (PingPong.MisattachedFbBBreaksFeedback).
- Utils.Rgba: `mix` and `strToColor` return QML `Qt.rgba` colour objects. They are modelled as a plain record of four reals; QML's own colour handling (clamping, colour spaces) is not modelled.
- Utils.ClampIdempotent: holds only for min ≤ max. With inverted bounds a second clamp can move the value.
- LoadSvg.ProfilePlacement: image sizes must be positive, because the source's division by zero yields `Infinity`/`NaN`.
- LoadSvg.CoverFits: zero or negative image sizes are excluded, because the source's division by zero yields `Infinity`/`NaN`.
- Three.ThreeProducer.Tick: `t` is unused, as in the source. The envelope is a parameter in [0, 1] rather than the computed exponential.
- P5.P5Producer.constructor: whether p5 runs `setup` during `new p5(...)` or later is host timing. It is a parameter (`setupNow`): the model covers both cases but does not say which one a browser takes.
- SkinAdapter.Adapter.SetProducer: `setupNow` is the same host-timing parameter, so the getter right after a swap to p5 gives either the new buffer or null.
- SkinAdapter.Adapter.SetProducer: `onResize` is recorded as a `Resynced` step. The skin's resize is not run, because it is a separate object the adapter only calls back.
- PingPong.Ping: a value rather than a shared object. Nothing but the skin holds the record, so there is no aliasing to lose.
- future/js/producers/three_producer.js is not part of this model: line 61 is not valid JavaScript. The working producer is js/producers/three_producer.js.
- The procedural sketches (js/p5_sketches/unknown_pleasures.js, live.js, default_sketch.js, example/js/p5_sketches/default_sketch.js, js/three_sketches/unknown_pleasures_3d.js) are not part of this model. They are drawing calls driven by randomness and noise.

## Findings

| source | as written | input that shows it | evidently intended | confidence | as-written member | corrected member |
|---|---|---|---|---|---|---|
| js/skin.js:149 | `fbB` is created with `ping.fbB` as its colour attachment | the first `resize`, when `ping.fbB` is null: `fbB` gets no attachment. Frame 1 (flip false) draws into `fbB`, and frame 2 reads `texB`, which never received that image. From the second `resize` on, `ping.fbB` is a framebuffer, `framebufferTexture2D` throws a TypeError, `isResizing = false` never runs, and every later frame only re-registers: rendering freezes for good | `createFramebuffer(gl, ping.texB)`, as example/js/skin.js:103 does, so that fbB draws into texB | not executed | PingPong.ReallocateAsWritten | PingPong.Reallocate |
