# Portfolio site: state machines and rendering rules

A model in Dafny of the logic inside a personal portfolio site written in
TypeScript and React. Most of the site is fixed content drawn by animation
libraries. What it decides for itself is modelled here:

- **Activity carousel** (`carousel.dfy`, module `CategoryCarousel`). The
  carousel keeps three state cells: the current index, the auto-play flag and
  the selected activity. They change on the previous and next arrows, the dots,
  the four-second auto-play tick, card clicks, the modal's close button and
  hovering the container. The index moves modulo the list's length. `Render`
  says what is on screen: nothing, the card at the index with its arrows and
  dots and modal, or a `TypeError` when the index is past the end of a
  non-empty list.
- **Extracurricular tabs** (`extracurricular.dfy`, module `Extracurricular`).
  The four tabs, their activity lists and their labels. Clicking a tab hands the
  active list to the one mounted carousel, under the label that `find` returns.
- **Floating particles** (`particles.dfy`, module `MorphicBackground`). Each
  `Particle` moves up by its own friction on every frame and is destroyed once
  it is more than its height above the top. A `ParticleField` is spawned into
  every 300 ms unless the window is blurred, and is filtered by `move()` on
  every frame.
- **Cursor store and cursor view** (`mouse_context.dfy`, `custom_cursor.dfy`).
  A three-field store (variant, caption, position) with one setter per field.
  The cursor is a pure function of the store: its size, spring, body, caption,
  trailing dot and pulse ring.
- **Small toggles**:
  - the menu flag (`menu_context.dfy`);
  - the single-expansion accordion of the experience timeline (`experience.dfy`);
  - the project details modal (`projects.dfy`).
- **List and string rules**:
  - the "first three technologies, then +N more" chips and the category icon
    fallback on project cards (`projects.dfy`);
  - the space to no-break-space mapping of letter-by-letter text
    (`animated_text.dfy`).

Where the source updates state in place, the model is a class whose methods
state the whole new state. Timers, animation frames and DOM events are step
methods that the caller invokes. Randomness, window sizes and pointer
coordinates arrive as arguments. `options.dfy` holds the `Option` and `Result`
types the other modules share. A `Result` is `Thrown(message)` for the error
a context hook throws.

## Model

| member | source | states |
|---|---|---|
| CategoryCarousel.NextIndex | src/components/ui/CategoryCarousel.tsx:50 | for any index and a non-empty list, the result is in range; it is the successor, or 0 after the last entry |
| CategoryCarousel.PrevIndex | src/components/ui/CategoryCarousel.tsx:45 | for any index and a non-empty list, the result is in range; it is the predecessor, or the last entry from 0 |
| CategoryCarousel.PrevUndoesNext | src/components/ui/CategoryCarousel.tsx:43-51 | previous after next returns to any in-range index |
| CategoryCarousel.NextUndoesPrev | src/components/ui/CategoryCarousel.tsx:43-51 | next after previous returns to any in-range index |
| CategoryCarousel.Advance | src/components/ui/CategoryCarousel.tsx:31-33 | zero steps leave the index as it was; one or more steps land in range |
| CategoryCarousel.AdvanceShifts | src/components/ui/CategoryCarousel.tsx:31-33 | up to n steps forward from an in-range index add k and wrap once past the end |
| CategoryCarousel.FullCycle | src/components/ui/CategoryCarousel.tsx:50 | n consecutive steps forward return to the starting index |
| CategoryCarousel.Render | src/components/ui/CategoryCarousel.tsx:63-187 | an empty list renders nothing. An index past the end of a non-empty list throws. Otherwise the card at the index is shown, arrows and dots appear exactly when there is more than one activity, exactly the current dot is highlighted, and the modal shows the selection |
| CategoryCarousel.Carousel.View | src/components/ui/CategoryCarousel.tsx:96 | the card renders exactly when the index is in range |
| CategoryCarousel.Carousel.constructor | src/components/ui/CategoryCarousel.tsx:23-25 | index 0, nothing selected, auto-play on |
| CategoryCarousel.Carousel.Previous | src/components/ui/CategoryCarousel.tsx:43-46 | the index becomes its predecessor modulo n and auto-play stops; the result is in range |
| CategoryCarousel.Carousel.Next | src/components/ui/CategoryCarousel.tsx:48-51 | the index becomes its successor modulo n and auto-play stops; the result is in range |
| CategoryCarousel.Carousel.Tick | src/components/ui/CategoryCarousel.tsx:29-41 | the index advances only while auto-play is on and there is more than one activity. Auto-play is left as it is and an in-range index stays in range |
| CategoryCarousel.Carousel.ActivityClick | src/components/ui/CategoryCarousel.tsx:53-56 | the clicked activity is selected and auto-play stops |
| CategoryCarousel.Carousel.CardClick | src/components/ui/CategoryCarousel.tsx:85 | a click on the card on screen selects exactly that activity, so the modal shows the card's activity, and auto-play stops |
| CategoryCarousel.Carousel.CloseModal | src/components/ui/CategoryCarousel.tsx:58-61 | the selection is cleared and auto-play restarts |
| CategoryCarousel.Carousel.DotClick | src/components/ui/CategoryCarousel.tsx:163-166 | the index becomes exactly the dot's index and auto-play stops |
| CategoryCarousel.Carousel.MouseEnter | src/components/ui/CategoryCarousel.tsx:70 | hovering the container stops auto-play and changes nothing else |
| CategoryCarousel.Carousel.MouseLeave | src/components/ui/CategoryCarousel.tsx:71 | leaving the container restarts auto-play and changes nothing else |
| CategoryCarousel.Carousel.ReceiveActivities | src/components/ui/CategoryCarousel.tsx:21-25 | a new list keeps the old index, so the index is in range afterwards exactly when the old index is below the new length |
| CategoryCarousel.Carousel.ReceiveActivitiesAndReset | src/components/ui/CategoryCarousel.tsx:23 | a new list with the index reset to 0 is in range exactly when the list is non-empty |
| Extracurricular.ActivitiesFor | src/components/sections/Extracurricular.tsx:20-137 | exactly the four tab ids have a list, and every list is non-empty |
| Extracurricular.FindLabel | src/components/sections/Extracurricular.tsx:200 | no result exactly when no tab has the id. Otherwise the result is the label of the first tab with that id |
| Extracurricular.CategoryName | src/components/sections/Extracurricular.tsx:200 | the heading is non-empty for a tab id and `''` for anything else |
| Extracurricular.TabContents | src/components/sections/Extracurricular.tsx:13-137 | each tab id selects its own list and label; the lists hold 5, 1, 3 and 3 activities |
| Extracurricular.TabIdsDistinct | src/components/sections/Extracurricular.tsx:13-18 | no two tabs share an id |
| Extracurricular.Section.constructor | src/components/sections/Extracurricular.tsx:11 | the literary tab is active. The carousel starts on the first literary card with nothing selected and auto-play on |
| Extracurricular.Section.SelectTabAsWritten | src/components/sections/Extracurricular.tsx:173-201 | the clicked tab becomes active and highlighted and the carousel gets its list. The index, the selection and the auto-play flag are kept, and the carousel throws exactly when the index is at least the new list's length |
| Extracurricular.Section.SelectTab | src/components/sections/Extracurricular.tsx:173-201 | as above, keeping the selection and the auto-play flag, but the carousel shows the first card of the new list |
| Extracurricular.Section.Highlighted | src/components/sections/Extracurricular.tsx:173-178 | a highlighted button belongs to a tab, and that tab's list is the one the carousel shows |
| Extracurricular.ExactlyOneHighlighted | src/components/sections/Extracurricular.tsx:173-178 | some tab button is always highlighted, and no two of the four buttons are highlighted together |
| Extracurricular.StaleIndexAfterTabSwitch | src/components/sections/Extracurricular.tsx:198-201 | four presses of next on the literary tab, then a switch to sports, render a `TypeError` |
| Extracurricular.FreshIndexAfterTabSwitch | src/components/sections/Extracurricular.tsx:198-201 | the same clicks with the resetting switch show the sports card |
| MorphicBackground.Travelled | src/components/ui/MorphicBackground.tsx:62-66 | the distance covered is non-negative, and at least one friction after one move |
| MorphicBackground.TravelledClosedForm | src/components/ui/MorphicBackground.tsx:62-66 | k moves cover exactly k times the friction |
| MorphicBackground.PositionStrictlyDecreases | src/components/ui/MorphicBackground.tsx:62 | with a positive friction, every later position is strictly below every earlier one |
| MorphicBackground.TravelledMonotone | src/components/ui/MorphicBackground.tsx:62 | a larger friction never covers less distance |
| MorphicBackground.RetiresWithin | src/components/ui/MorphicBackground.tsx:62-75 | with friction at least 0.5, a particle spawned at y is below -20 after any k >= 2(y+20)+1 moves |
| MorphicBackground.Particle.Rotation | src/components/ui/MorphicBackground.tsx:67 | the displayed rotation is plus or minus the accumulated value, according to the fixed direction |
| MorphicBackground.Particle.constructor | src/components/ui/MorphicBackground.tsx:17-36 | the position is the spawn y, the rotation is 0, and the element is attached |
| MorphicBackground.Particle.Move | src/components/ui/MorphicBackground.tsx:61-76 | the position drops by exactly the friction and the rotation grows by it. The result is false, and the element is removed, exactly when the position is below -20 |
| MorphicBackground.Particle.Destroy | src/components/ui/MorphicBackground.tsx:78-80 | the element is removed and nothing else changes |
| MorphicBackground.MoveKeepsValid | src/components/ui/MorphicBackground.tsx:62-66 | one move keeps position and rotation on the particle's trajectory |
| MorphicBackground.Survivors | src/components/ui/MorphicBackground.tsx:122 | the filtered list is no longer than the original |
| MorphicBackground.SurvivorsMembers | src/components/ui/MorphicBackground.tsx:122 | a particle is in the filtered list exactly when it was in the list and is still attached |
| MorphicBackground.SurvivorsDistinct | src/components/ui/MorphicBackground.tsx:122 | filtering a list of distinct particles keeps them distinct |
| MorphicBackground.SelectIsSurvivors | src/components/ui/MorphicBackground.tsx:122 | keeping the particles whose `move()` returned true, in order, is the list of attached particles |
| MorphicBackground.FilterMoving | src/components/ui/MorphicBackground.tsx:122 | each particle moves exactly once, and the result keeps, in order, those whose move returned true |
| MorphicBackground.ParticleField.constructor | src/components/ui/MorphicBackground.tsx:93-95 | no particles, not paused |
| MorphicBackground.ParticleField.Blur | src/components/ui/MorphicBackground.tsx:102 | pauses spawning and leaves the particles alone |
| MorphicBackground.ParticleField.Focus | src/components/ui/MorphicBackground.tsx:101 | resumes spawning and leaves the particles alone |
| MorphicBackground.ParticleField.SpawnTick | src/components/ui/MorphicBackground.tsx:106-119 | while paused, nothing changes. Otherwise exactly one new particle is appended, attached, spawned at innerHeight + 100 with no moves and no rotation yet, with friction 0.5 + 0.5·draw and the drawn rotation direction |
| MorphicBackground.ParticleField.Update | src/components/ui/MorphicBackground.tsx:121-124 | every particle moves once, paused or not. The list becomes the still-attached particles in order, and every particle on it stays live |
| MouseContext.MouseStore.constructor | src/context/MouseContext.tsx:18-20 | variant default, caption empty, position (-100, -100) |
| MouseContext.MouseStore.SetCursorVariant | src/context/MouseContext.tsx:18 | sets the variant only |
| MouseContext.MouseStore.SetCursorText | src/context/MouseContext.tsx:19 | sets the caption only |
| MouseContext.MouseStore.UpdateCursorPosition | src/context/MouseContext.tsx:22-24 | sets the position to exactly (x, y) and nothing else |
| MouseContext.UseMouseContext | src/context/MouseContext.tsx:65-70 | the provider's store when there is one, otherwise the thrown error with its message |
| MouseContext.EnterCaptioned | src/components/ui/CategoryCarousel.tsx:86-89 | a captioned element sets both variant and caption and leaves the position alone |
| MouseContext.LeaveCaptioned | src/components/ui/CategoryCarousel.tsx:90-93 | leaving a captioned element restores the initial variant and caption |
| MouseContext.LeavePlain | src/components/ui/CategoryCarousel.tsx:141 | leaving an uncaptioned element resets the variant and keeps whatever caption was set |
| MouseContext.CaptionedHover | src/components/ui/CategoryCarousel.tsx:86-93 | a captioned hover and its leave end in the initial variant and caption from any state |
| CustomCursor.CursorSize | src/components/ui/CustomCursor.tsx:55-62 | every size is square with an even side. It is 8 exactly for text, 50 exactly for the interactive variants and 20 exactly for default and hidden |
| CustomCursor.IsInteractive | src/components/ui/CustomCursor.tsx:65 | default, text and hidden are the plain variants; the other two are interactive |
| CustomCursor.Render | src/components/ui/CustomCursor.tsx:55-136 | the cursor is centred on the pointer. The sniper body, the softer spring (damping 15, stiffness 300) and the pulse ring go exactly with link and button, and the trailing dot exactly with the rest. The caption shows exactly for a link with a non-empty text |
| CustomCursor.SizePresets | src/components/ui/CustomCursor.tsx:55-62 | every size is square, has an even side, and is 8, 20 or 50 |
| CustomCursor.LargeIffInteractive | src/components/ui/CustomCursor.tsx:55-65 | the 50 px size goes exactly with link and button |
| CustomCursor.HiddenRendersAsDefault | src/components/ui/CustomCursor.tsx:55-62 | `'hidden'` renders exactly like `'default'`, at 20 by 20 |
| CustomCursor.ButtonHasNoCaption | src/components/ui/CustomCursor.tsx:40 | a button never shows its caption |
| CustomCursor.SpringPresets | src/components/ui/CustomCursor.tsx:78-83 | damping 15 and stiffness 300 exactly when interactive, 20 and 400 exactly when not |
| MenuContext.MenuStore.constructor | src/context/MenuContext.tsx:12 | the menu starts closed |
| MenuContext.MenuStore.ToggleMenu | src/context/MenuContext.tsx:14-16 | negates the flag |
| MenuContext.MenuStore.CloseMenu | src/context/MenuContext.tsx:18-20 | leaves the menu closed from any state |
| MenuContext.UseMenuContext | src/context/MenuContext.tsx:35-40 | the provider's store when there is one, otherwise the thrown error with its message |
| MenuContext.ToggleTwice | src/context/MenuContext.tsx:14-16 | two toggles restore the flag |
| MenuContext.CloseCloseToggle | src/context/MenuContext.tsx:14-20 | a second close leaves the menu closed, and a toggle after a close opens it |
| Experience.Toggle | src/components/sections/Experience.tsx:115-117 | collapses exactly when the entry is the expanded one, otherwise expands exactly that entry |
| Experience.ToggleTwice | src/components/sections/Experience.tsx:116 | two toggles restore nothing-expanded or the same entry, and collapse everything from another entry |
| Experience.ToggleSwitches | src/components/sections/Experience.tsx:116 | toggling another entry switches straight to it |
| Experience.RenderEntry | src/components/sections/Experience.tsx:193-254 | the down chevron and the achievements show exactly for the expanded entry, and the Visit link exactly when the website is not `'#'` |
| Experience.AtMostOneExpanded | src/components/sections/Experience.tsx:239-240 | no two entries show their achievements at once |
| Experience.ExperienceSection.constructor | src/components/sections/Experience.tsx:10 | nothing is expanded at first |
| Experience.ExperienceSection.ToggleExpanded | src/components/sections/Experience.tsx:115-117 | the new state is the toggle of the old one |
| AnimatedText.Glyph | src/components/ui/AnimatedText.tsx:53 | a space becomes U+00A0 and every other character is kept |
| AnimatedText.Spans | src/components/ui/AnimatedText.tsx:51-55 | one span per code point, in order, each the glyph of its letter |
| AnimatedText.NoSpaceSurvives | src/components/ui/AnimatedText.tsx:53 | no span holds U+0020 |
| AnimatedText.SpansIdempotent | src/components/ui/AnimatedText.tsx:53 | mapping the spans again changes nothing |
| AnimatedText.OnlyTheSpaceChanges | src/components/ui/AnimatedText.tsx:53 | a span differs from its letter exactly when the letter is U+0020; tabs, newlines and no-break spaces pass through |
| Projects.ShownChips | src/components/sections/Projects.tsx:188 | the first min(3, n) technologies, in order |
| Projects.OverflowBadge | src/components/sections/Projects.tsx:196-199 | a badge appears exactly when there are more than three technologies |
| Projects.ChipsAndBadgeCoverAll | src/components/sections/Projects.tsx:188-199 | chips plus the badge's number equal n, and the badge counts exactly the technologies after the third |
| Projects.LinkShown | src/components/sections/Projects.tsx:218 | a link is hidden exactly when it is absent or the empty string, the two falsy values of an optional string |
| Projects.CategoryIcon | src/components/sections/Projects.tsx:167 | the mapped icon for a known category, the Code icon otherwise |
| Projects.RenderCard | src/components/sections/Projects.tsx:167-237 | icon, chips and badge as above; live-demo and source links appear exactly when the link is present and non-empty |
| Projects.RenderModal | src/components/sections/Projects.tsx:297-381 | the modal exists exactly when a project is selected, lists all its technologies, and shows the links that are present |
| Projects.CatalogueCards | src/components/sections/Projects.tsx:28-122 | every project on the page has a mapped icon, three chips, a badge and only a source link |
| Projects.ProjectsSection.constructor | src/components/sections/Projects.tsx:26 | no project is selected, so there is no modal |
| Projects.ProjectsSection.ViewDetails | src/components/sections/Projects.tsx:205 | the project is selected and its modal is shown |
| Projects.ProjectsSection.CloseDetails | src/components/sections/Projects.tsx:318 | the selection is cleared and the modal is gone |

## Left out

- DOM, SVG and framer-motion: element creation, styles, animation props and spring physics are not modelled. The views are datatypes that record what is on screen.
- Timers and frames: `setInterval`, `requestAnimationFrame` and `setTimeout` scheduling is not modelled. Each firing is a step method (`Carousel.Tick`, `ParticleField.SpawnTick`, `ParticleField.Update`).
- Randomness: `Math.random` draws are method arguments (the friction draw, the rotation direction). The horizontal coordinate, scale and `siner` are not modelled.
- MorphicBackground.Particle.Move: does not compute the horizontal `Math.sin` sway or the transform string, which do not affect the position or the retirement.
- Window sizes are arguments (`innerHeight`). `steps` (half the window height) only feeds the sway and is not modelled.
- Floating point: positions and frictions are exact reals, so rounding of JavaScript doubles is not modelled. Cursor positions are integers; half a preset size is always whole.
- `createRipple` in `src/context/MouseContext.tsx` adds and later removes a DOM element and is not modelled. Listener registration and removal in every component is not modelled either.
- The carousel's and projects' descriptions, images, gradients, icons, periods, challenge, solution and impact texts are not modelled. Activities keep title and organization. Projects keep title, technologies, category, period and links.
- Projects.CategoryIcon: the icon map is a plain object, so a category spelled like an `Object.prototype` member would find an inherited value. The model treats the map as holding only its six keys.
- The cursor handlers of the many other elements are not modelled one by one. They take three shapes: a captioned enter and leave (`MouseContext.EnterCaptioned` and `MouseContext.LeaveCaptioned`), an enter that sets only the variant (`MouseContext.MouseStore.SetCursorVariant`, for example src/components/ui/CategoryCarousel.tsx:140), and a leave that resets only the variant (`MouseContext.LeavePlain`). An enter of the second shape with the variant `'link'` shows whatever caption the store still holds, because `CustomCursor.Render` shows the caption for any link with a non-empty text.
- AnimatedText.Spans: takes a sequence of Unicode scalar values. `Array.from` also keeps a lone surrogate of a malformed string as an element of its own, which a Dafny `char` cannot hold, so such strings are not modelled.
- The `'hidden'` variant is never set anywhere in the code. `CustomCursor.HiddenRendersAsDefault` records that it would hide nothing.
- src/components/ui/SectionMusicPlayer.tsx is not part of this model: its playback effect is empty, and its only state is an audio element's load flag, which is browser I/O. There is no fade or play/pause state machine in the code to model.
- The three.js globe, the tsparticles background, smooth scrolling, the loading screen, the header's scroll listener and the other sections' fixed content are not part of this model.

## Findings

| source | as written | input that shows it | evidently intended | confidence | as-written member | corrected member |
|---|---|---|---|---|---|---|
| src/components/sections/Extracurricular.tsx:198-201 | the carousel is rendered without a `key`, and its `currentIndex` (src/components/ui/CategoryCarousel.tsx:23) is never reset when `activities` changes, so a tab switch keeps the old index and the card reads `activities[currentIndex].gradient` (src/components/ui/CategoryCarousel.tsx:96) past the end of the new list | on the literary tab (5 activities) press next four times to reach index 4, then click the sports tab (1 activity): the card reads an undefined entry and throws a `TypeError` | a tab switch starts the carousel on the first card of the new list | high; not executed | Extracurricular.StaleIndexAfterTabSwitch | Extracurricular.Section.SelectTab |
