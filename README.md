# Portfolio site: verified model of its client-side logic

This project models the logic of a React portfolio site in Dafny and proves what that logic promises. It covers four pieces:

- **Hero background** (`HeroSection.jsx`, component `AuroraBackground`). Stars and aurora control points sit on a canvas.
  - A resize rebuilds both lists from the viewport size.
  - Every frame, each control point eases toward a wave height that the pointer pushes.
  - Every frame, each star drifts left, wraps to the right edge and twinkles. Its painted opacity is capped at 1.
  - The model keeps the component's own state in a class, `HeroSection.AuroraBackground`. The state is the viewport size, the pointer, the two lists and how many random values have been drawn.
  - Each method is proved against functions of `AuroraModel`, and those functions' properties are proved as lemmas.
  - `Math.random` is an injected stream `random: nat -> real` read through a counter. `Math.sin` and `Math.sqrt` are injected functions. Each of the three is constrained only by its range: [0, 1), [-1, 1] and non-negative.
- **Guestbook** (`ContactSection.jsx`):
  - the form record and its change handlers;
  - the submit guard (blank message);
  - the normalisation of the form into the inserted row (trim, the anonymous-name default, blank to null);
  - the email-visibility rule of the entry list;
  - the submit state machine (`submitting`, the snackbar, the reset on success), as class `ContactSection.Guestbook`.
  - Trimming follows ECMAScript's `String.prototype.trim`, whose whitespace is the WhiteSpace and LineTerminator code points (module `JsText`).
- **Projects page** (`Projects.jsx`):
  - the id → loading table built by the fetch and cleared per image-load event;
  - the skeleton and opacity rule and the empty state;
  - the tech-chip colours with their `#666` fallback, as the page writes them, and beside them the list with a six-digit fallback (see Findings).
- **About page** (`About.jsx`): the `expanded` accordion state and the consistency of the skill tables with the level-colour table.

Files:
- `wrappers.dfy`: `Option` and the `Response` of a remote query.
- `aurora_model.dfy`: the simulation entities.
- `hero_section.dfy`: the background component.
- `js_text.dfy`: ECMAScript trim.
- `contact_section.dfy`: the guestbook.
- `projects.dfy`: the projects page.
- `about.dfy`: the about page.

## Model

| member | source | states |
|---|---|---|
| AuroraModel.StarCount | lecture1/my-portfolio/src/components/HeroSection.jsx:69 | definition only: floor(width·height/8000); its bounds are StarCountBounds |
| AuroraModel.StarCountBounds | lecture1/my-portfolio/src/components/HeroSection.jsx:70 | the star count is the largest n with 8000·n ≤ width·height, and 0 when either side is 0 |
| AuroraModel.StarOf | lecture1/my-portfolio/src/components/HeroSection.jsx:71-79 | definition only: the star literal from its seven draws, in the order the fields are written |
| AuroraModel.NewStar | lecture1/my-portfolio/src/components/HeroSection.jsx:71-79 | definition only: StarOf applied to draws k .. k+6; ranges in NewStarInRange |
| AuroraModel.NewStarInRange | lecture1/my-portfolio/src/components/HeroSection.jsx:72-80 | with draws in [0,1) a new star has size in [0.5,2.5), speed in [0.1,0.4), opacity in [0.2,1), twinkle speed in [0.01,0.03), phase in [0,2π), x in [0,width) and y in [0,height) (the upper bound not strict on a zero extent) |
| AuroraModel.DrawnStars | lecture1/my-portfolio/src/components/HeroSection.jsx:71-81 | n loop iterations create exactly n stars |
| AuroraModel.DrawnStarsAt | lecture1/my-portfolio/src/components/HeroSection.jsx:71-81 | star i is built from the seven consecutive draws starting at seed + 7i, in field order |
| AuroraModel.InitialStars | lecture1/my-portfolio/src/components/HeroSection.jsx:68-71 | initialisation yields exactly floor(width·height/8000) stars |
| AuroraModel.InitialStarsInBand | lecture1/my-portfolio/src/components/HeroSection.jsx:68-82 | every freshly initialised star has its attribute ranges and lies on the screen |
| AuroraModel.Wraps | lecture1/my-portfolio/src/components/HeroSection.jsx:190-191 | definition only: a star wraps when its drifted x is below -10 (strictly) |
| AuroraModel.StepStar | lecture1/my-portfolio/src/components/HeroSection.jsx:190-197 | a frame moves x left by the speed, or, below -10, puts x at width+10 and y at draw·height (in [0,height) for a lawful draw); the twinkle phase advances by the twinkle speed; the other attributes are kept |
| AuroraModel.StepStarInBand | lecture1/my-portfolio/src/components/HeroSection.jsx:190-197 | a frame keeps a star's attribute ranges and keeps it within 10px of either side and inside the height |
| AuroraModel.WrapCount | lecture1/my-portfolio/src/components/HeroSection.jsx:191-193 | the number of random draws a frame takes is at most the number of stars |
| AuroraModel.WrapCountCountsWrapping | lecture1/my-portfolio/src/components/HeroSection.jsx:191-193 | the draws taken equal the number of stars that wrap |
| AuroraModel.StarsAfterFrame | lecture1/my-portfolio/src/components/HeroSection.jsx:188-197 | a frame keeps the number of stars |
| AuroraModel.StarsAfterFrameAt | lecture1/my-portfolio/src/components/HeroSection.jsx:188-197 | star i after a frame is star i stepped with the draw that follows the draws of the wrapping stars before it |
| AuroraModel.WrapCountPrefix | lecture1/my-portfolio/src/components/HeroSection.jsx:188-193 | a longer prefix of the list never takes fewer draws, and a wrapping star in between takes one more |
| AuroraModel.WrappingStarsDrawDistinct | lecture1/my-portfolio/src/components/HeroSection.jsx:188-193 | two different wrapping stars of one frame never share a random draw |
| AuroraModel.StarsAfterFrameInBand | lecture1/my-portfolio/src/components/HeroSection.jsx:188-197 | a whole frame keeps every star's ranges and band |
| AuroraModel.Distance | lecture1/my-portfolio/src/components/HeroSection.jsx:202-204 | the pointer distance is non-negative |
| AuroraModel.Twinkle | lecture1/my-portfolio/src/components/HeroSection.jsx:198 | the twinkle factor lies in [0,1] |
| AuroraModel.Boost | lecture1/my-portfolio/src/components/HeroSection.jsx:205 | the pointer glow lies in [0,0.5], is positive exactly when dist < 150, and is 0.5 at distance 0 |
| AuroraModel.TwinkledOpacity | lecture1/my-portfolio/src/components/HeroSection.jsx:199 | a twinkled opacity lies between half the base opacity and the base opacity |
| AuroraModel.DrawnOpacity | lecture1/my-portfolio/src/components/HeroSection.jsx:197-209 | definition only: min(twinkled opacity + pointer glow, 1); its bounds are DrawnOpacityBounds |
| AuroraModel.DrawnOpacityBounds | lecture1/my-portfolio/src/components/HeroSection.jsx:197-210 | the painted opacity lies in [0,1] and is at least half the base; from 150px on it equals the twinkled opacity |
| AuroraModel.PaintedOpacities | lecture1/my-portfolio/src/components/HeroSection.jsx:188-210 | a frame paints exactly one opacity per star |
| AuroraModel.PaintedOpacitiesAt | lecture1/my-portfolio/src/components/HeroSection.jsx:188-210 | painted opacity i belongs to star i (after its move) |
| AuroraModel.PointX | lecture1/my-portfolio/src/components/HeroSection.jsx:90 | definition only: x = (width/5)·i; monotone by InitialPointsSpan |
| AuroraModel.NewPoint | lecture1/my-portfolio/src/components/HeroSection.jsx:89-96 | definition only: the point literal for index i from draws k and k+1; ranges in InitialPointsShape |
| AuroraModel.InitialPoints | lecture1/my-portfolio/src/components/HeroSection.jsx:85-88 | initialisation yields exactly 6 control points |
| AuroraModel.InitialPointsShape | lecture1/my-portfolio/src/components/HeroSection.jsx:85-98 | every initial point has x = (width/5)·i, y = baseY = 0.4·height, amplitude in [50,80) and speed in [0.01,0.02) |
| AuroraModel.InitialPointsSpan | lecture1/my-portfolio/src/components/HeroSection.jsx:90 | point 0 is at x = 0, point 5 at x = width, and x never decreases along the list |
| AuroraModel.FullHdViewport | lecture1/my-portfolio/src/components/HeroSection.jsx:68-98 | a 1600×900 viewport gets 180 stars and points at x = 0, 320, …, 1600 |
| AuroraModel.Force | lecture1/my-portfolio/src/components/HeroSection.jsx:127 | inside 300px the push force lies in (0,80] and is 80 exactly at distance 0 |
| AuroraModel.Push | lecture1/my-portfolio/src/components/HeroSection.jsx:121-129 | no push from 300px on; inside, minus the full force when the pointer is above the point, plus half of it otherwise; it is never below -80 nor above 40 |
| AuroraModel.Wave | lecture1/my-portfolio/src/components/HeroSection.jsx:118 | the undisturbed target is within one amplitude of the rest height |
| AuroraModel.Target | lecture1/my-portfolio/src/components/HeroSection.jsx:118-129 | the target lies in [baseY - amplitude - 80, baseY + amplitude + 40] and is the plain wave from 300px on |
| AuroraModel.Ease | lecture1/my-portfolio/src/components/HeroSection.jsx:131 | definition only: y + (target − y)·0.05; its contraction is EaseStep |
| AuroraModel.EaseStep | lecture1/my-portfolio/src/components/HeroSection.jsx:131 | one easing step leaves 95% of the distance to the target and lands between the old height and the target |
| AuroraModel.StepPoint | lecture1/my-portfolio/src/components/HeroSection.jsx:114-132 | a frame advances the phase by exactly the speed, keeps x, baseY, amplitude and speed, and eases y 5% toward the target computed with the new phase |
| AuroraModel.StepPointKeepsShape | lecture1/my-portfolio/src/components/HeroSection.jsx:114-132 | a frame keeps every initialisation property of a point, and y stays in [baseY - amplitude - 80, baseY + amplitude + 40] |
| AuroraModel.AuroraAfterFrame | lecture1/my-portfolio/src/components/HeroSection.jsx:114 | a frame keeps the number of control points |
| AuroraModel.EaseFramesGap | lecture1/my-portfolio/src/components/HeroSection.jsx:131 | after n frames toward a fixed target the signed gap is 0.95ⁿ times the initial gap |
| AuroraModel.EaseFramesResidual | lecture1/my-portfolio/src/components/HeroSection.jsx:131 | after n frames the distance to a fixed target is 0.95ⁿ times the initial distance |
| AuroraModel.EaseFramesMonotone | lecture1/my-portfolio/src/components/HeroSection.jsx:131 | the distance to a fixed target never grows from frame to frame |
| AuroraModel.HundredFramesConverge | lecture1/my-portfolio/src/components/HeroSection.jsx:131 | after 100 or more frames at most 1% of the initial distance to a fixed target remains |
| HeroSection.AuroraBackground.constructor | lecture1/my-portfolio/src/components/HeroSection.jsx:43-65 | mounting (pointer at the origin, lists built by the first resize) establishes the frame invariant and the initial lists |
| HeroSection.AuroraBackground.NextRandom | lecture1/my-portfolio/src/components/HeroSection.jsx:73 | one Math.random() call returns the next value of the stream and advances the counter by one |
| HeroSection.AuroraBackground.Resize | lecture1/my-portfolio/src/components/HeroSection.jsx:58-65 | resize stores the size and then rebuilds the stars and then the points from the draws that follow, and establishes the frame invariant |
| HeroSection.AuroraBackground.InitStars | lecture1/my-portfolio/src/components/HeroSection.jsx:68-82 | the star list is replaced by the initial stars of the current size, taking seven draws per star |
| HeroSection.AuroraBackground.DrawStars | lecture1/my-portfolio/src/components/HeroSection.jsx:70-81 | the loop pushes n stars, star i built from draws 7i .. 7i+6 after the first, and takes 7n draws in all |
| HeroSection.AuroraBackground.DrawNextStar | lecture1/my-portfolio/src/components/HeroSection.jsx:71-80 | one loop iteration: the stars drawn so far gain star i from the next seven draws |
| HeroSection.AuroraBackground.DrawStar | lecture1/my-portfolio/src/components/HeroSection.jsx:72-80 | one pushed star is built from the next seven draws |
| HeroSection.AuroraBackground.InitAuroraPoints | lecture1/my-portfolio/src/components/HeroSection.jsx:85-98 | the point list is replaced by the six initial points, taking two draws per point |
| HeroSection.AuroraBackground.MouseMove | lecture1/my-portfolio/src/components/HeroSection.jsx:101-106 | the pointer is set to the event's client position, and the invariant is kept |
| HeroSection.AuroraBackground.UpdateAurora | lecture1/my-portfolio/src/components/HeroSection.jsx:113-132 | every control point steps once, in place, and the invariant is kept |
| HeroSection.AuroraBackground.StepAuroraPoint | lecture1/my-portfolio/src/components/HeroSection.jsx:115-131 | the forEach body computes exactly one point step |
| HeroSection.AuroraBackground.MoveStar | lecture1/my-portfolio/src/components/HeroSection.jsx:190-197 | the drift of one star, taking a draw exactly when it wraps |
| HeroSection.AuroraBackground.StarOpacity | lecture1/my-portfolio/src/components/HeroSection.jsx:198-210 | the opacity a star is painted with |
| HeroSection.AuroraBackground.StepStarAt | lecture1/my-portfolio/src/components/HeroSection.jsx:188-210 | one forEach iteration moves star i in place and extends the stepped prefix by one |
| HeroSection.AuroraBackground.StepStars | lecture1/my-portfolio/src/components/HeroSection.jsx:187-226 | the star loop yields the frame's star list, takes one draw per wrapping star and paints one opacity per star |
| HeroSection.AuroraBackground.UpdateStars | lecture1/my-portfolio/src/components/HeroSection.jsx:187-226 | as StepStars, and in addition every painted opacity lies in [0,1] and the invariant is kept |
| HeroSection.AuroraBackground.Animate | lecture1/my-portfolio/src/components/HeroSection.jsx:229-240 | one frame steps the aurora and then the stars, keeps the invariant, and paints opacities in [0,1] |
| JsText.IsWhiteSpace | lecture1/my-portfolio/src/components/ContactSection.jsx:80 | definition only: the ECMAScript WhiteSpace and LineTerminator code points that `trim` removes |
| JsText.TrimStart | lecture1/my-portfolio/src/components/ContactSection.jsx:80 | definition only: drops leading whitespace; shape in TrimStartShape |
| JsText.TrimEnd | lecture1/my-portfolio/src/components/ContactSection.jsx:80 | definition only: drops trailing whitespace; shape in TrimEndShape |
| JsText.Trim | lecture1/my-portfolio/src/components/ContactSection.jsx:80 | definition only: both ends; slice, emptiness and idempotence in TrimIsSlice, TrimEmptyIff and TrimIdempotent |
| JsText.TrimStartShape | lecture1/my-portfolio/src/components/ContactSection.jsx:80 | trimStart leaves the suffix after a whitespace-only prefix, and that suffix does not start with whitespace |
| JsText.TrimEndShape | lecture1/my-portfolio/src/components/ContactSection.jsx:80 | trimEnd leaves the prefix before a whitespace-only suffix, and that prefix does not end with whitespace |
| JsText.TrimIsSlice | lecture1/my-portfolio/src/components/ContactSection.jsx:89-92 | trim is a slice of its input between whitespace-only ends, with no whitespace at either of its own ends |
| JsText.TrimEmptyIff | lecture1/my-portfolio/src/components/ContactSection.jsx:80 | a string trims to empty exactly when it is all whitespace |
| JsText.TrimIdempotent | lecture1/my-portfolio/src/components/ContactSection.jsx:89-92 | trimming twice is trimming once |
| JsText.NoEdgeWhiteSpaceTrimsToItself | lecture1/my-portfolio/src/components/ContactSection.jsx:89-92 | a string with no whitespace at either end is its own trim |
| ContactSection.HandleInputChange | lecture1/my-portfolio/src/components/ContactSection.jsx:65-71 | the field named by the event takes the event's value (`checked` for the checkbox) and every other field is kept |
| ContactSection.InputChangeLastWins | lecture1/my-portfolio/src/components/ContactSection.jsx:65-71 | of two edits to one field only the later one counts |
| ContactSection.InputChangesCommute | lecture1/my-portfolio/src/components/ContactSection.jsx:65-71 | edits to different fields commute |
| ContactSection.InputChangeToSameValue | lecture1/my-portfolio/src/components/ContactSection.jsx:65-71 | an edit that reports a field's current value leaves the form unchanged |
| ContactSection.HandleEmojiSelect | lecture1/my-portfolio/src/components/ContactSection.jsx:73-75 | picking an emoji changes only the emoji |
| ContactSection.EmojiAlwaysAChoice | lecture1/my-portfolio/src/components/ContactSection.jsx:376-389 | the default emoji is the first choice, a pick keeps the emoji among the choices, and the choices are distinct, so at most one is drawn as selected |
| ContactSection.MessageMissing | lecture1/my-portfolio/src/components/ContactSection.jsx:80 | the submit guard fires exactly when the message is all whitespace |
| ContactSection.OrNull | lecture1/my-portfolio/src/components/ContactSection.jsx:91-92 | the null fallback of a blank field: null exactly for the empty string, the string itself otherwise |
| ContactSection.NewRow | lecture1/my-portfolio/src/components/ContactSection.jsx:88-95 | the row has the anonymous name for a blank name and the trimmed name otherwise; the trimmed message; affiliation and email null exactly when blank and trimmed otherwise; emoji and the public flag unchanged |
| ContactSection.NewRowNormalised | lecture1/my-portfolio/src/components/ContactSection.jsx:80-95 | every text of the row is trimmed, the name and every present affiliation or email is non-empty, and the message is non-empty exactly when the guard lets the submit through |
| ContactSection.TrimmedForm | lecture1/my-portfolio/src/components/ContactSection.jsx:89-92 | every text field is replaced by its trim, and the emoji and public flag are kept |
| ContactSection.NewRowOfTrimmedForm | lecture1/my-portfolio/src/components/ContactSection.jsx:88-95 | normalisation is idempotent: an already trimmed form gives the same row |
| ContactSection.EmailShown | lecture1/my-portfolio/src/components/ContactSection.jsx:524 | an entry's email is shown exactly when it is public, present and non-empty (`entry.email` is falsy on `""`) |
| ContactSection.EmailShownOfNewRow | lecture1/my-portfolio/src/components/ContactSection.jsx:91-94 | for a row from this form the email is shown exactly when it was made public and is not blank |
| ContactSection.ViewEntries | lecture1/my-portfolio/src/components/ContactSection.jsx:453-469 | a spinner exactly while loading, else the placeholder exactly when there are no entries, else the list |
| ContactSection.Guestbook.constructor | lecture1/my-portfolio/src/components/ContactSection.jsx:30-42 | the initial state: no entries, loading, not submitting, snackbar closed, the initial form |
| ContactSection.Guestbook.FetchEntriesDone | lecture1/my-portfolio/src/components/ContactSection.jsx:48-63 | rows (null as none) replace the entries, an error keeps them, and loading ends either way |
| ContactSection.Guestbook.InputChange | lecture1/my-portfolio/src/components/ContactSection.jsx:65-71 | the form becomes HandleInputChange of the old form |
| ContactSection.Guestbook.EmojiSelect | lecture1/my-portfolio/src/components/ContactSection.jsx:73-75 | the form becomes HandleEmojiSelect of the old form |
| ContactSection.Guestbook.Submit | lecture1/my-portfolio/src/components/ContactSection.jsx:77-95 | a blank message opens the error snackbar and inserts nothing, with submitting unchanged; otherwise submitting becomes true and the normalised row is handed to the insert |
| ContactSection.Guestbook.InsertDone | lecture1/my-portfolio/src/components/ContactSection.jsx:97-114 | success opens the success snackbar, resets the form to exactly the initial form and refetches; failure opens the error snackbar and keeps the form; submitting ends false in both cases |
| ContactSection.Guestbook.HandleSubmit | lecture1/my-portfolio/src/components/ContactSection.jsx:77-115 | the whole submit, for each of the three outcomes (blank message, insert succeeded, insert failed) |
| ContactSection.Guestbook.CloseSnackbar | lecture1/my-portfolio/src/components/ContactSection.jsx:549 | closing the snackbar keeps its message and severity |
| Projects.Loading | lecture1/my-portfolio/src/pages/Projects.jsx:169 | definition only: `imageLoading[id]` is truthy, a missing key reading as false |
| Projects.AllLoading | lecture1/my-portfolio/src/pages/Projects.jsx:57-60 | definition only: the forEach fill, one `true` per id in list order; keys and values in AllLoadingExact |
| Projects.AllLoadingExact | lecture1/my-portfolio/src/pages/Projects.jsx:56-61 | the table built after a fetch has exactly one entry per project id, all true |
| Projects.FetchedImagesLoading | lecture1/my-portfolio/src/pages/Projects.jsx:56-61 | right after a fetch every fetched project's thumbnail counts as loading |
| Projects.MarkLoaded | lecture1/my-portfolio/src/pages/Projects.jsx:69-74 | the loaded id maps to false, the keys gain only that id and every other entry is kept |
| Projects.MarkLoadedIdempotent | lecture1/my-portfolio/src/pages/Projects.jsx:69-74 | a repeated load event changes nothing more |
| Projects.MarkLoadedCommutes | lecture1/my-portfolio/src/pages/Projects.jsx:69-74 | load events of two images can arrive in either order |
| Projects.MarkLoadedKeepsOthers | lecture1/my-portfolio/src/pages/Projects.jsx:69-74 | a load event leaves every other project's loading state as it was |
| Projects.ImageOpacity | lecture1/my-portfolio/src/pages/Projects.jsx:169-194 | the opacity is 0 or 1, and it is 0 exactly when the skeleton is shown (the entry is true) |
| Projects.ViewPage | lecture1/my-portfolio/src/pages/Projects.jsx:85-100 | a spinner exactly while loading; otherwise one card per project and the empty-state message exactly when there are none |
| Projects.ChipStyleWith | lecture1/my-portfolio/src/pages/Projects.jsx:240-246 | definition only: the mapped colour or the fallback, suffixed by `20` for the background and `40` for the border, and the mapped colour or the secondary text colour for text and icon |
| Projects.TechChipStyle | lecture1/my-portfolio/src/pages/Projects.jsx:240-246 | definition only: ChipStyleWith with the page's `#666` fallback; values in KnownTechChip and UnknownTechChip |
| Projects.TechColor | lecture1/my-portfolio/src/pages/Projects.jsx:23-34 | a tech has a colour exactly when it is one of the ten keys, and then the mapped one |
| Projects.TechColorsSixDigits | lecture1/my-portfolio/src/pages/Projects.jsx:23-34 | every mapped colour is a six-digit hex colour |
| Projects.KnownTechChip | lecture1/my-portfolio/src/pages/Projects.jsx:240-247 | a mapped tech's text and icon take its colour, its background and border are that colour suffixed by `20` and `40`, and both are valid eight-digit colours |
| Projects.UnknownTechChip | lecture1/my-portfolio/src/pages/Projects.jsx:240-247 | an unmapped tech's text and icon take the secondary text colour, its background and border colours are `#66620` and `#66640`, and the border declaration is `1px solid #66640` |
| Projects.FallbackChipColorsInvalid | lecture1/my-portfolio/src/pages/Projects.jsx:240-242 | as written, an unmapped tech's background and border colours are not CSS hex colours |
| Projects.CorrectedChipColorsValid | lecture1/my-portfolio/src/pages/Projects.jsx:240-242 | with the six-digit fallback every chip's background and border colours are valid |
| Projects.CorrectedChipAgrees | lecture1/my-portfolio/src/pages/Projects.jsx:240-247 | the correction changes nothing for mapped techs and nothing in the text and icon colours |
| Projects.ProjectChips | lecture1/my-portfolio/src/pages/Projects.jsx:233-250 | one chip per tech in stack order, each styled as the page writes it (`#666` fallback), and none when the stack is null |
| Projects.CorrectedProjectChips | lecture1/my-portfolio/src/pages/Projects.jsx:233-250 | the same list built with the six-digit fallback, in which every background and border colour is a valid CSS colour |
| Projects.CorrectedProjectChipsAgree | lecture1/my-portfolio/src/pages/Projects.jsx:240-246 | the two lists agree on every mapped tech; on an unmapped one the page paints `#66620` where the corrected list paints `#66666620` |
| Projects.ProjectsPage.constructor | lecture1/my-portfolio/src/pages/Projects.jsx:37-39 | the initial state: no projects, loading, an empty table |
| Projects.ProjectsPage.FetchDone | lecture1/my-portfolio/src/pages/Projects.jsx:45-67 | rows (null as none) replace the list and the table is rebuilt from them; an error keeps both; loading ends either way |
| Projects.ProjectsPage.LoadingState | lecture1/my-portfolio/src/pages/Projects.jsx:57-60 | the forEach fill yields exactly one true entry per project id |
| Projects.ProjectsPage.HandleImageLoad | lecture1/my-portfolio/src/pages/Projects.jsx:69-74 | the table becomes MarkLoaded of the old table |
| About.IsExpanded | lecture1/my-portfolio/src/pages/About.jsx:280 | definition only: a panel is drawn expanded when the state holds its id (`expanded === id`) |
| About.InitialOpensIntro | lecture1/my-portfolio/src/pages/About.jsx:72 | initially the introduction is expanded and no other panel is |
| About.AtMostOneExpanded | lecture1/my-portfolio/src/pages/About.jsx:280 | two panels drawn expanded in the same state are the same panel |
| About.HandleChange | lecture1/my-portfolio/src/pages/About.jsx:74-76 | opening makes the panel the only expanded one; closing leaves none expanded |
| About.Click | lecture1/my-portfolio/src/pages/About.jsx:281 | a click toggles the clicked panel and leaves every other panel closed |
| About.ClickTwiceOnOpen | lecture1/my-portfolio/src/pages/About.jsx:74-76 | clicking the open panel closes everything, and clicking it again reopens it |
| About.ClickOpensClosedPanel | lecture1/my-portfolio/src/pages/About.jsx:74-76 | clicking a closed panel opens it and closes whichever panel was open |
| About.SkillColor | lecture1/my-portfolio/src/pages/About.jsx:649 | a skill whose level is a key gets that level's colour, a seven-character `#` colour |
| About.ShippedLevelsColoured | lecture1/my-portfolio/src/pages/About.jsx:45-69 | every level used by the skills table and by the legend is a key of the colour table |
| About.CategoryMargin | lecture1/my-portfolio/src/pages/About.jsx:595 | definition only: 4 for every index before the last, 0 otherwise |
| About.CategoryMargins | lecture1/my-portfolio/src/pages/About.jsx:595 | the shipped table has two categories; the first gets bottom margin 4 and the last, and only the last, gets 0 |

## Left out

- Canvas painting is not modelled (HeroSection.jsx:134-184, 208-224, 230-234): gradients, blur, curves, arcs, the halo of large stars and the background fill are drawing calls with no result to check. Only the opacity passed to the star's fill is modelled.
- The requestAnimationFrame loop is not modelled, nor the window listeners, their removal on unmount, the missing-canvas early return and the canvas size assignments (HeroSection.jsx:51-52, 61-62, 239-253). These are host scheduling and event plumbing. `Animate` is one frame, and `Resize` is the handler.
- Floating point is not modelled. Coordinates and opacities are exact reals, and `Math.PI` is the exact real of the decimal it prints as.
- Math.random, Math.sin and Math.sqrt are injected, constrained only by their ranges. The model assumes nothing else draws from the random stream between the component's own calls.
- AuroraModel.Distance: states only that the distance is non-negative, because Math.sqrt is injected with that law alone. The bounds proved from it hold for any non-negative distance.
- Supabase calls are not modelled (`select`, `order`, `limit`, `eq`, `insert`). A fetch hands its outcome to `FetchEntriesDone` / `FetchDone` as a `Response`, and an insert's outcome to `InsertDone` as a boolean. Server-side filtering, ordering and the 20-row limit are not modelled.
- `console.error` logging and `formatDate` (`toLocaleDateString`) are not modelled: the first is output, the second a locale library call.
- The submit handler's `await` is modelled as the split between `Submit` and `InsertDone`. `HandleSubmit` assumes no other event arrives in between.
- ContactSection.HandleInputChange: covers only the (name, type) pairs the form's markup produces. These are four text inputs and the `isEmailPublic` checkbox. An event naming any other field is not modelled.
- Projects.TechColor: looks up only the ten own keys of the colour table. A tech named after an inherited object property such as `constructor` is not modelled.
- The display-only fields are not modelled: project title, description, thumbnail, link and date; skill descriptions; the about page's static text. Behaviour does not depend on them.
- The snackbar's auto-hide timer is not modelled, nor JSX layout and styling beyond the colours and margins above.
- About.Click: the accordion library reports the opposite of the panel's current state as `isExpanded`. The model takes this as given, since the library is not part of this model.
- Home.jsx, AboutPreview.jsx, App.jsx, theme.js and Navigation.jsx are not part of this model: they are static content, routing and styling.

## Findings

| source | as written | input that shows it | evidently intended | confidence | as-written member | corrected member |
|---|---|---|---|---|---|---|
| lecture1/my-portfolio/src/pages/Projects.jsx:240-242 | the fallback `'#666'` gets the alpha suffix `20` / `40` appended | a tech not in the table, e.g. `Rust`: background `#66620` and border colour `#66640` have five hex digits, which CSS Color Module Level 4 (section 5.2) does not accept, so both declarations are dropped | a six-digit fallback `#666666`, giving `#66666620` and `#66666640` | high, not executed | Projects.FallbackChipColorsInvalid | Projects.CorrectedChipColorsValid |
