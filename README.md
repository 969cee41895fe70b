# Portfolio site interaction logic, in Dafny

This project models the parts of a React portfolio site that hold logic, and proves properties of them:

- **The hero point cloud** (`components/Hero.tsx`). An animation effect samples 80 points on a sphere along a golden-angle spiral. Each frame, it damps its rotation towards a pointer-driven target and adds automatic yaw and pitch offsets. It then rotates every point (yaw, then pitch), projects it in perspective onto the canvas, joins pairs of projected points closer than 80 pixels, and fades points by depth.
- **The chat assistant** (`components/ChatAssistant.tsx`). This is a send state machine over the open flag, the message list, the input text and the loading flag. The send handler awaits a language-model reply, so it is modelled as two steps: the send up to the await, and the completion after it.
- **The contact form** (`components/Contact.tsx`). It is a record of three text fields. Editing an input overwrites one field, and submitting clears all three.
- **The project cards** (`components/Projects.tsx`). A card tilts by at most 10 degrees towards the pointer, grows to 1.02 while hovered, and lies flat again when the pointer leaves.

Modules:

- `SphereMath` (sphere_math.dfy) holds the animation's pure arithmetic.
- `Hero` (hero.dfy) holds the animation state as a class, with the point-generation loop and the edge loop as methods.
- `Chat`, `Contact` and `Projects` each pair pure transition functions with a class whose methods are proved against those functions.
- `Wrappers` holds `Option`.

Numbers are Dafny `real`s. `Math.sin`, `Math.cos`, `Math.acos`, `Math.sqrt` and `Math.PI` are a parameter (`SphereMath.MathFns`). The only assumption made about them is sin² + cos² = 1 (`SphereMath.Pythagorean`), and it is stated as a precondition wherever a proof needs it.

Two JavaScript edge cases are modelled explicitly:

- A rotated depth of exactly −400 makes `400 / (400 + z)` Infinity. Such a point is `AtInfinity` and is never joined by an edge.
- A canvas with a zero-length side gives radius 0, and the opacity `0 / 0` is NaN. This is `Opacity` returning `None`.

A resize changes only the canvas size; the radius and the points keep their setup values. The effect's cleanup removes the listeners but does not cancel the pending animation frame, so nothing is promised about frames after unmount.

## Model

| member | source | states |
|---|---|---|
| SphereMath.SphereRadius | components/Hero.tsx:16-21 | the radius is a quarter of the smaller canvas side: non-negative, at most a quarter of each side, and equal to a quarter of one of them |
| Hero.GeneratePoints | components/Hero.tsx:19-33 | exactly 80 points, point i being spiral point i in index order; with sin²+cos²=1 every point lies on the sphere of the setup radius |
| SphereMath.SpherePoint | components/Hero.tsx:25-31 | point i of the spiral: polar angle acos(1 − 2(i + 0.5)/80), azimuth π(1 + √5)·i, and coordinates radius·(sin θ cos φ, sin θ sin φ, cos θ) |
| SphereMath.SpherePointOnSphere | components/Hero.tsx:25-31 | every spiral point has squared length radius², whatever the index |
| SphereMath.PointerTarget | components/Hero.tsx:40-44 | the target is zero exactly when the pointer is at the canvas centre, and positive exactly when it is past the centre |
| Hero.SphereAnimation.constructor | components/Hero.tsx:16-38 | setup: the canvas size is the element's size, the radius comes from SphereRadius, the points come from the spiral, and the rotation and targets start at 0 |
| Hero.SphereAnimation.HandleMouseMove | components/Hero.tsx:40-44 | the two targets become the pointer targets for the pointer's offset within the canvas; nothing else changes |
| SphereMath.Damp | components/Hero.tsx:51-52 | one damping step leaves 0.95 of the gap to the target, moves strictly towards the target without passing it, and fixes a value already at the target |
| SphereMath.SettleGap | components/Hero.tsx:51-52 | after n frames with a fixed target, the gap is 0.95ⁿ times the initial gap |
| SphereMath.SettleMonotone | components/Hero.tsx:51-52 | with a fixed target, successive frames approach the target monotonically from the side they started on |
| SphereMath.SettleWithin200Frames | components/Hero.tsx:51-52 | from rest with target 0.3, the rotation is within 0.001 of the target after 200 frames |
| SphereMath.DampingAfter200 | components/Hero.tsx:51 | 0.95²⁰⁰ is below 0.0001 |
| SphereMath.AutoRotationOffsets | components/Hero.tsx:55-60 | the drawn pitch stays within 0.2 of the damped pitch, and the drawn yaw strictly increases with time |
| SphereMath.Effective | components/Hero.tsx:55-60 | the drawn attitude at time now: the damped pitch plus sin(now·0.0005)·0.2, and the damped yaw plus now·0.0005·0.3 |
| SphereMath.Rotate | components/Hero.tsx:63-69 | rotation about the vertical axis by the yaw, then about the horizontal axis by the pitch, term for term as the source |
| SphereMath.AngleOf | components/Hero.tsx:64-69 | under sin²+cos²=1, the cosine and sine of any angle form a unit pair |
| SphereMath.RotationPreservesNorm | components/Hero.tsx:63-69 | the yaw-then-pitch rotation keeps each point's squared distance from the origin |
| SphereMath.DepthWithinRadius | components/Hero.tsx:69 | a point on a sphere of radius r has depth in [−r, r] |
| SphereMath.Perspective | components/Hero.tsx:71-78 | the depth is kept; the point is finite exactly when 400 + z ≠ 0; then scale·(400 + z) = 400 and the offsets from the canvas centre are x·scale and y·scale |
| SphereMath.Project | components/Hero.tsx:62-79 | projection keeps the length and the order: output i is input i rotated and projected |
| SphereMath.ScaleDecreasesWithDepth | components/Hero.tsx:72 | for points in front of the eye, the scale is positive and never larger for a deeper point, and strictly smaller when the point is strictly deeper |
| SphereMath.ProjectionOnSphere | components/Hero.tsx:62-79 | for a sphere smaller than the focal length, every projected point is finite, with depth in [−r, r] and scale between 400/(400+r) and 400/(400−r) |
| SphereMath.Near | components/Hero.tsx:87-91 | two projected points are joined when both are finite and their squared planar distance is below 80·80, the strict threshold of the hypotenuse test |
| Hero.ConnectNearby | components/Hero.tsx:85-96 | the nested loop emits segment (i, j) exactly when i < j < n and both points are closer than 80; the list has no self-pairs and no duplicates, and is in loop order |
| SphereMath.EdgeListUnique | components/Hero.tsx:85-96 | the edge list is fully determined by the projected points |
| SphereMath.SortedUnique | components/Hero.tsx:85-96 | two strictly loop-ordered segment lists with the same members are equal |
| SphereMath.HypotAgrees | components/Hero.tsx:87-91 | comparing the hypotenuse with 80 is equivalent to comparing the squared distance with 6400 |
| SphereMath.Opacity | components/Hero.tsx:101-102 | the opacity is max(0.1, (z + r)/(2r)): at least 0.1, at least the depth ratio, and equal to one of them; undefined exactly when the radius is 0, when every rotated depth is 0 too and the quotient is 0/0 (NaN) |
| SphereMath.OpacityInRange | components/Hero.tsx:101-102 | for a depth on the sphere, the opacity lies in [0.1, 1] |
| SphereMath.OpacityMonotone | components/Hero.tsx:101-102 | opacity never decreases as depth grows |
| SphereMath.FramePointFacts | components/Hero.tsx:62-106 | every sampled point, under any rotation, is drawn with opacity in [0.1, 1], and at a finite position with positive scale when the radius is below 400 |
| Hero.SphereAnimation.Animate | components/Hero.tsx:48-109 | one frame: rotationX follows mouseY and rotationY follows mouseX by one damping step; the drawn attitude adds the automatic offsets without storing them; the frame's points are the projection of the setup points, its edges are the edge list, and its opacities are as above |
| Hero.SphereAnimation.HandleResize | components/Hero.tsx:113-116 | only the width and the height change; the rotation, the targets, the radius and the points stay |
| Hero.Mount | components/Hero.tsx:9-111 | without a canvas or a 2D context, nothing is set up; otherwise the state is set up at rest and the first frame is drawn at once: its attitude is the automatic offsets alone, its points are the projection of the setup points, its edges are the edge list of those points, and its opacities follow from their depths |
| Chat.ChatAssistant.constructor | components/ChatAssistant.tsx:7-17 | the widget starts closed, not loading, with empty input and the single greeting message with id "init" |
| Chat.TrimStart | components/ChatAssistant.tsx:30 | leading JavaScript white space is removed: the result is a suffix whose dropped prefix is blank and which does not start with white space |
| Chat.TrimEnd | components/ChatAssistant.tsx:30 | trailing JavaScript white space is removed, symmetrically |
| Chat.Trim | components/ChatAssistant.tsx:30 | `.trim()`: leading and then trailing JavaScript white space removed, as TrimStart and TrimEnd state |
| Chat.TrimEmptyIffBlank | components/ChatAssistant.tsx:30 | the trimmed input is empty exactly when every character is white space |
| Chat.History | components/ChatAssistant.tsx:44-47 | the history has one entry per message, in order, each with the message's role and one text part |
| Chat.HistoryAppend | components/ChatAssistant.tsx:44-47 | the history of a concatenation is the concatenation of the histories |
| Chat.SendBlocked | components/ChatAssistant.tsx:30 | the send is refused exactly when the trimmed input is empty or a reply is loading |
| Chat.SendStep | components/ChatAssistant.tsx:28-49 | when blocked, the state is unchanged and nothing is sent; otherwise one user message with the untrimmed input is appended, the input is cleared, loading is set, and the request carries the pre-send history and the input |
| Chat.SendsIffNotBlank | components/ChatAssistant.tsx:30 | a message is sent exactly when the input has a non-white-space character and nothing is loading |
| Chat.ChatAssistant.SendButtonDisabled | components/ChatAssistant.tsx:150 | the send button is disabled under exactly the guard's condition |
| Chat.ChatAssistant.HandleSend | components/ChatAssistant.tsx:28-49 | the handler up to its await performs SendStep, and returns early exactly when the send button is disabled |
| Chat.ReplyText | components/ChatAssistant.tsx:49-66 | the completing message carries the reply text, or the fixed error text when the call failed |
| Chat.CompleteStep | components/ChatAssistant.tsx:51-69 | exactly one model message is appended (the reply text, or the fixed error text on failure), loading ends, and the other state is kept |
| Chat.ChatAssistant.Complete | components/ChatAssistant.tsx:51-69 | the handler after its await performs CompleteStep |
| Chat.SendRound | components/ChatAssistant.tsx:28-69 | a full round appends the user message and the model message, leaves the input empty and loading off, and the next history extends the sent history by those two entries |
| Chat.SendKeepsWellFormed | components/ChatAssistant.tsx:28-41 | a send that goes through adds the user's turn after a model message, so the alternation is kept and loading starts |
| Chat.CompleteKeepsWellFormed | components/ChatAssistant.tsx:51-69 | the completion of a pending send adds the model's turn after the user's, so the alternation is kept and loading ends |
| Chat.WellFormedPreserved | components/ChatAssistant.tsx:7-75 | every step keeps the conversation as the greeting followed by alternating user and model messages, loading exactly while a user message awaits its reply |
| Chat.ToggleStep | components/ChatAssistant.tsx:75 | the toggle flips the open flag and keeps everything else |
| Chat.ChatAssistant.Toggle | components/ChatAssistant.tsx:75 | the toggle button performs ToggleStep |
| Chat.TypeStep | components/ChatAssistant.tsx:144 | typing sets the input text to the typed value and keeps the open flag, the messages and the loading flag |
| Chat.ChatAssistant.SetInput | components/ChatAssistant.tsx:144 | typing replaces the input text and nothing else |
| Contact.ContactForm.constructor | components/Contact.tsx:5-9 | the form starts with all three fields empty |
| Contact.Update | components/Contact.tsx:11-14 | the named field reads the new value; the other two read as before |
| Contact.ContactForm.HandleChange | components/Contact.tsx:11-14 | an input change performs Update on the field the input names |
| Contact.FieldsDetermineForm | components/Contact.tsx:5-9 | a form is determined by what its three fields read |
| Contact.UpdatesCommute | components/Contact.tsx:11-14 | edits of different fields commute; for the same field, the last edit wins |
| Contact.ContactForm.HandleSubmit | components/Contact.tsx:16-20 | after submitting, the form equals the initial empty form whatever it held before, so a second submit changes nothing |
| Projects.TiltAngles | components/Projects.tsx:17-25 | for a pointer inside the card, both angles are in [−10, 10]; rotateX is 0 exactly on the horizontal centre line and negative exactly below it; rotateY is 0 exactly on the vertical centre line and positive exactly right of it |
| Projects.ProjectCard.constructor | components/Projects.tsx:11-12 | a card starts flat, with rotation (0, 0), and not hovered |
| Projects.ProjectCard.HandleMouseMove | components/Projects.tsx:14-28 | without a card element nothing changes; otherwise the rotation becomes the tilt for the pointer's offset within the card |
| Projects.ProjectCard.HandleMouseEnter | components/Projects.tsx:39 | entering sets the hovered flag, so the card is drawn at scale 1.02 |
| Projects.ProjectCard.HandleMouseLeave | components/Projects.tsx:30-33 | leaving resets the rotation to (0, 0) and clears the hovered flag, so the scale is 1 again |
| Projects.CardScale | components/Projects.tsx:47 | the scale is between 1 and 1.02, and is 1.02 exactly when hovered |
| Projects.ShineCentre | components/Projects.tsx:99 | the shine sits at the middle of a flat card, stays within [30 %, 70 %] for tilts within ±10, and is right of (below) the middle exactly when rotateY (rotateX) is positive |

## Left out

- Canvas drawing (`clearRect`, paths, `stroke`, `arc`, `fill`) and the colour strings. A frame returns the projected points, edges and opacities that those calls would consume.
- Hero.SphereAnimation.Animate and Hero.Mount are stated as if drawing always succeeds. When the radius exceeds 400 (smaller canvas side above 1600 pixels), a point whose rotated depth is below −400, behind the eye, has a negative scale, and `ctx.arc` throws on the radius `2 * scale`. That ends the frame loop before the next frame is requested. In the first frame, it ends the effect before the resize listener is added and before the cleanup is returned. For a radius below 400, `FramePointFacts` shows that no point has a negative scale.
- The exact values of the sphere coordinates. `Math.sin`, `Math.cos`, `Math.acos`, `Math.sqrt` and `Math.PI` are a parameter, assumed only to satisfy sin² + cos² = 1, so the spiral's spacing is not modelled.
- IEEE-754 rounding. All arithmetic is over exact reals; only the Infinity and NaN cases named above are represented.
- `requestAnimationFrame`, `Date.now`, `addEventListener`/`removeEventListener` and the React effect lifecycle. The clock is a parameter of `Animate`, and successive frames are successive calls. The cleanup does not cancel the animation frame, so no "no frame after unmount" property is stated.
- Reading the canvas and card elements and their bounding rectangles. Their sizes and offsets are parameters; a missing card element is `None`.
- `services/geminiService.ts` and the `@google/genai` client it wraps. This is a foreign network call; its result is a parameter of the completion step, either any reply text or a failure.
- The `async`/`await` machinery, and any interleaving of a second send while a reply is pending. The send button is disabled while loading, and the guard refuses such a send.
- Message ids and timestamps, which come from `Date.now()` and `new Date()`. Ids are parameters, and no uniqueness is claimed; timestamps are not modelled.
- Scrolling to the newest message, and all JSX rendering of the chat panel.
- The `alert` shown on contact submit.
- About, Skills, Experience, App, Navbar and the type declarations. They are static rendering over data, and their small UI logic is outside this model.
- Projects.TiltAngles: requires a positive card width and height. A pointer event inside a card implies a card of positive size; for a zero-size card, the source would divide by zero and yield NaN, which is not modelled.
- Projects.ProjectCard.HandleMouseMove: requires a positive card width and height, for the same reason: a mousemove fires only over the card, which is 450 pixels tall and as wide as its grid column, so it has positive size.
- Hero.SphereAnimation.Animate: the per-point facts (opacity in [0.1, 1], finite position) are stated under sin² + cos² = 1 and a positive radius (below 400 for finiteness), not for arbitrary `Math` functions.
