# blaze.js sprites in Dafny

blaze.js is a tiny scene graph over HTML canvases. A Blaze sprite has:

- a unique id from a closure counter (`Blaze.unique`);
- its own canvas and that canvas's 2D context;
- an ordered array of child sprites;
- the attributes `alpha`, `rotation`, `visible`, `x` and `y`, whose defaults come from the prototype.

`render` walks the tree:

- It skips a sprite that is invisible or has zero alpha.
- For a sprite with children, it draws the sprite's canvas onto a fresh scratch canvas. It then composites every child that rendered onto the scratch canvas, inside a save/restore bracket.
- It answers the resulting canvas. When a target element is given, it instead wraps the canvas in a new canvas, appends the wrapper to the element and answers undefined.
- A `finally` block assigns the sprite's context the `globalAlpha` it had on entry.

The project has three modules:

- `Canvas` (canvas.dfy) is the host drawing layer, modelled abstractly.
  - Canvases are opaque handles handed out by a `Document`. Creating a canvas fails once the host's `limit` is reached; this is the only way a call can fail.
  - Each canvas has one context value. It holds the `globalAlpha`, the stack of alphas that `save` pushed, and an append-only log of every operation issued on it.
  - An `Element` records the handles appended to it.
- `Blaze` (blaze.dfy) holds the sprites.
  - `Sprite` is a class whose methods update its fields in place, and the id counter is a class too.
  - `Sprite.Render` does, step by step, what the source does. It is proved equal to the ghost function `RenderOf` (with `Body`, `Finish`, `ComposeFrom`, `Step` and `Attach`). `RenderOf` computes what a call does to every canvas, to the shared `child` variable and to the target element.
  - The sprite graph is passed to render as a ghost map `g` from sprites to their attributes. A ghost rank on it witnesses that render meets no cycle: every child of a sprite that passes the visibility gate is in `g` and ranks below it. The children of a skipped sprite are never visited, so they need not be in `g`.
- `RenderProperties` (render_properties.dfy) proves what render promises.
  - Skipping.
  - The canvas render answers.
  - The scratch canvas's log, made of balanced save … restore brackets.
  - The single wrapper canvas appended to an element.
  - Restoring the sprite's alpha on normal and failing exits.
  - Untouched canvases.
  - Failure only at the canvas limit.
  - Which sprite's attributes a parent uses for a child.

In blaze.js:82-83, `child` and `rendered` are assigned without `var`, so they are implicit globals. The model keeps `child` as one shared cell, `Window.child`, which every level of the recursion reads and writes. The nested render of a child reassigns it. When the parent then reads `child.alpha`, `child.x`, `child.y` and `child.rotation` for the bracket, it gets the attributes of `LastVisited` of the child. That is the last sprite the nested render visited, and it is the child itself only when the child has no children. `SharedChild` and `StepOnScratch` state this.

## Model

| member | source | states |
|---|---|---|
| `Canvas.Apply` | blaze.js:85-90 | issuing an operation appends it to the context's log. Only save and restore change the save stack. An alpha assignment sets globalAlpha, and translate, rotate and drawImage leave it unchanged. |
| `Canvas.Allocate` | blaze.js:120-122 | creating a canvas keeps every existing context and the host's limit, and adds one blank context (alpha 1, nothing saved, empty log) at the next handle |
| `Canvas.Issue` | blaze.js:85-90 | an operation on canvas h applies it to h's context and leaves every other context, the number of canvases and the limit unchanged |
| `Canvas.Document.GlobalAlpha` | blaze.js:70 | reads the globalAlpha of a canvas's context, the `oldAlpha` render keeps for its finally block |
| `Canvas.Document.CreateCanvas` | blaze.js:120-122 | below the limit: answers the next fresh handle, and the state is Allocate of the old one. At the limit: answers a fault and changes nothing. |
| `Canvas.Document.Perform` | blaze.js:85-90 | the new state is the old one with the operation issued on that canvas only |
| `Canvas.Element.AppendChild` | blaze.js:101 | the element's list is the old list with the handle appended |
| `Blaze.Counter.constructor` | blaze.js:130 | the counter starts at the given seed, which stands for the clock reading of the source |
| `Blaze.Counter.Unique` | blaze.js:129-134 | answers the current counter and increments it by exactly one, so successive ids increase strictly by one |
| `Blaze.Defaults` | blaze.js:16-20 | a sprite has the prototype defaults: alpha 1, rotation 0, visible, at (0, 0), and the empty children array that init assigns |
| `Blaze.Window.constructor` | blaze.js:82-83 | the shared cell standing for the implicit global `child` starts empty, and the window holds the document |
| `Blaze.Skipped` | blaze.js:64 | the gate of render: a sprite is skipped exactly when it is invisible or its alpha is 0 |
| `Blaze.Sprite.constructor` | blaze.js:16-20 | a new sprite has no children, alpha 1, rotation 0, is visible and sits at (0, 0) |
| `Blaze.Sprite.Init` | blaze.js:28-35 | always takes one id. Below the canvas limit it answers a fresh sprite with that id, a fresh canvas and the prototype defaults. Otherwise it fails and creates no canvas. |
| `Blaze.Sprite.Add` | blaze.js:43-46 | children become the old children with the sprite appended, and the same sprite is answered |
| `Blaze.Sprite.Render` | blaze.js:63-108 | the completion, the document's canvases, the shared `child` and the element's appended list are exactly those RenderOf computes from the state on entry |
| `Blaze.Sprite.Compose` | blaze.js:73-95 | the loop over the children yields exactly Body of the state on entry. Its invariant is that the remaining iterations compute ComposeFrom from index i. |
| `Blaze.Sprite.CompositeChild` | blaze.js:82-91 | one iteration yields exactly Step: the shared `child` is assigned and rendered, and then read back for the bracket |
| `Blaze.Composite` | blaze.js:85-90 | the bracket changes only canvas h and keeps the number of canvases and the limit |
| `Blaze.RenderOf` | blaze.js:63-108 | render keeps the limit and never removes a canvas. Afterwards the shared `child` holds what it held or a sprite of the graph, and nothing is appended without an element. |
| `Blaze.Body` | blaze.js:73-95 | the composition is always a canvas when it completes, and it never appends |
| `Blaze.Finish` | blaze.js:97-107 | the element branch and the finally block keep the limit and leave the shared `child` alone. Without an element they append nothing. |
| `Blaze.ComposeFrom` | blaze.js:81-92 | the loop keeps the limit, never removes a canvas and appends nothing |
| `Blaze.Step` | blaze.js:82-91 | after an iteration the shared `child` holds a sprite of the graph |
| `Blaze.Attach` | blaze.js:97-101 | the element branch keeps the limit and the shared `child` |
| `RenderProperties.CompositeIsBracket` | blaze.js:85-90 | the composite appends exactly save, alpha, translate(x, y), rotate, drawImage(image, x, y), restore. The scratch context's alpha and save stack end as they began. |
| `RenderProperties.Bracket` | blaze.js:85-90 | the reference definition of a bracket: save, alpha, translate(x, y), rotate, drawImage(image, x, y), restore, which CompositeIsBracket proves Composite issues |
| `RenderProperties.FinishFrame` | blaze.js:97-107 | the element branch and the finally block leave every canvas except the sprite's own exactly as the body left them, the new wrapper aside. The sprite's own canvas has its alpha assigned back, and a failure still means the limit was reached. |
| `RenderProperties.RenderOfFrame` | blaze.js:63-108 | every canvas that existed before render is untouched unless it is a sprite's canvas. A sprite's canvas ends with its globalAlpha and save stack, having gained only alpha assignments. Render fails only when the document already holds `limit` canvases. |
| `RenderProperties.BodyFrame` | blaze.js:73-95 | the same frame and failure condition for the composition inside the try block |
| `RenderProperties.ComposeFromFrame` | blaze.js:81-92 | the same for the loop, and the scratch canvas gains only whole brackets while its alpha and save stack end as they began |
| `RenderProperties.StepFrame` | blaze.js:82-91 | the same for one iteration. The scratch canvas gains only whole brackets, at most one of them (six operations), while its alpha and save stack end as they began. |
| `RenderProperties.LastVisited` | blaze.js:82-83 | the sprite the shared `child` ends on is in the graph and no higher in rank. It is the sprite itself exactly when the sprite is skipped or has no children. |
| `RenderProperties.RenderOfChild` | blaze.js:82-83 | after a render that completes normally, `child` holds its old value when the sprite is skipped or has no children, and otherwise LastVisited of the sprite |
| `RenderProperties.BodyChild` | blaze.js:75-94 | the same for the composition of a visible sprite |
| `RenderProperties.ComposeFromChild` | blaze.js:81-92 | after the loop completes, `child` holds LastVisited of the last child, or its old value when no iteration ran |
| `RenderProperties.StepChild` | blaze.js:82-83 | after an iteration completes, `child` holds LastVisited of the child rendered |
| `RenderProperties.SharedChild` | blaze.js:82-90 | a child that renders to a canvas is composited with the attributes of LastVisited of the child. That is the child itself if and only if the child has no children. |
| `RenderProperties.StepOnScratch` | blaze.js:82-91 | a child that answers false leaves the scratch canvas as it was. A child that answers a canvas appends exactly one bracket, drawn with LastVisited's attributes. |
| `RenderProperties.RenderSkips` | blaze.js:64-66 | render answers false if and only if the sprite is invisible or has alpha 0. Then it creates no canvas, issues no operation, leaves `child` alone and appends nothing, with or without an element. |
| `RenderProperties.RenderReturns` | blaze.js:73-103 | without an element, a sprite with no children never fails. It answers its own canvas, and its only effect is the finally block's alpha assignment. A sprite with children answers the newly created scratch canvas, distinct from every existing handle. |
| `RenderProperties.ScratchContents` | blaze.js:76-92 | the scratch canvas's log is drawImage(own canvas, x, y) followed by whole balanced brackets. Its alpha and save stack are those of a new canvas. |
| `RenderProperties.RenderAttaches` | blaze.js:97-101 | with an element, a normal completion answers undefined and appends exactly one canvas, the last one created. That canvas holds exactly the sprite's alpha and one drawImage of the composition at (x, y). A failure appends nothing. |
| `RenderProperties.AlphaRestored` | blaze.js:68-107 | on normal and failing exits alike, the sprite's context ends with the globalAlpha it had on entry |
| `RenderProperties.CycleThroughSkipped` | blaze.js:43-66 | a cycle through a skipped sprite (a sprite whose invisible child has the sprite as a child) satisfies the acyclicity precondition of render, because the gate stops render before the skipped sprite's loop |
| `RenderProperties.CycleBelowSkipped` | blaze.js:64-66 | the children of a skipped sprite need not be in the graph, so a visible sprite whose invisible child leads anywhere, a cycle included, satisfies the acyclicity precondition of render |

## Left out

- Real canvas and DOM work are not modelled: pixels, blending, getContext and the browser side of appendChild. Canvases are handles with an operation log. The only host fault modelled is failure to create a canvas, at a fixed limit.
- `Canvas.Apply` assigns any value to globalAlpha, whereas a browser ignores an assignment outside 0..1 or a NaN. Save and restore track only the alpha; translations and rotations are logged but not composed into a transform.
- `rotationToRadians` (blaze.js:110-112) is floating point with π. Rotations are logged in the sprite's own unit.
- Numbers are unbounded integers (ids) and exact reals (alpha, rotation, x, y), not IEEE doubles. The visibility gate `!this.alpha` is modelled as `alpha == 0`, so NaN, undefined and non-numbers are left out.
- The `new Date().getTime()` seed of `Blaze.unique` (blaze.js:130) is a constructor parameter of `Counter`.
- The jQuery-style constructor wrapper, `Blaze.fn.init.prototype` and the global registration (blaze.js:12, 137, 140) are not modelled. Neither is the `blz` alias used at blaze.js:98, which is the same allocator as `Blaze.canvas`.
- `children()` (blaze.js:53-55) is not modelled. `init` assigns the array `this.children`, which shadows the prototype method on every sprite, so the accessor cannot be called.
- `for … in` (blaze.js:81) is modelled as an index loop over the array. Enumerable properties added to `Array.prototype` are not visited.
- The precondition `Ranked` of render excludes only a cycle that render reaches through sprites that pass the visibility gate. render diverges on such a cycle, in a browser until the stack overflows. A cycle through or below a skipped sprite is allowed, since render stops at the gate and never visits what lies below it.
- The target of render is modelled as an `Element` or none. The source documents it as a string (blaze.js:60), which has no `appendChild`, so blaze.js:101 would throw after the wrapper canvas was drawn. A thrown `appendChild` is one of the host faults left out.
- `rendered` (blaze.js:83) is a local variable in the model. The implicit global is written just before it is read, so nothing in render observes the difference.
- The body of render is split into three methods: `Render`, `Compose` (the try block's composition) and `CompositeChild` (one iteration of the loop). The order of the statements is the source's.
