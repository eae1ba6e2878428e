# crow: tiled rectangle borders and backend bookkeeping, in Dafny

This project models two pieces of the `crow` 2D rendering backend.

- **The border composer `draw_rectangles`** (`examples/rectangles.rs`). It draws
  the border of each rectangle from two small repeating edge textures. First it
  stacks a "vertical" tile bottom-up on the left and right edges. Then it lays a
  "horizontal" tile right-to-left along the bottom and top edges. It finishes
  each axis with a partial section of the tile at the rectangle's origin corner.
  The right and top copies are mirrored.
- **The integer logic of the OpenGL backend** (`src/backend/mod.rs`). This covers:
  - the capability limits `GlConstants::load` keeps;
  - the overflow-checked RGBA byte count of a pixel readback, and the
    capacity limit of the buffer that receives it;
  - the error-code classification after `UseProgram`;
  - the order in which the clear, readback and frame-finalising operations
    issue their driver commands.

Files:

- `tiling.dfy`, module `Tiling`: the values of the composer and its
  specification. `RectangleCalls` is the exact sequence of draw calls one
  rectangle produces. `Plan` is the sequence for a whole deque of rectangles.
  The lemmas state how many tiles there are, where each one goes, which copy is
  mirrored, that the sections stay inside their textures, and that the tiles
  partition every edge.
- `rectangles.dfy`, module `Rectangles`: `DrawRectangles`, the imperative
  composer. It uses the same two `checked_sub` counting loops, appends to a log
  of issued draw calls, and returns as soon as a draw fails. It is proved
  against `Plan`.
  - The loop body of the source is split over `DrawVerticalEdges` (first loop
    and vertical remainder) and `DrawHorizontalEdges` (second loop and
    horizontal remainder).
  - The two `ctx.draw(..)?` calls of each step are `DrawPair`.
- `backend.dfy`, module `GlBackend`: `Load`, `ByteCount` and `UseProgramOutcome`
  as functions, and a `Backend` class. The class holds the bound framebuffer,
  the bound texture, the loaded limits and a command log. Its methods model the
  stateful operations.
- `wrappers.dfy`, module `Wrappers`: the `Option` type both other modules use.

Inputs that the code gets from outside become parameters:

- Whether the driver accepts a draw is `fails(i, call)`: does the driver reject
  `call` when it is the i-th draw of this composition.
- The limits `GetIntegerv` answers are the four arguments of `Load`.
- The successive answers of `GetError` are `errors(0)`, `errors(1)`, ….
- The bytes `ReadPixels`/`GetTexImage` write are `pixels(i)`.
- Whether `swap_buffers` succeeds is `swapSucceeds`.

An abort (`bug!`, a failed `unwrap`) is the `Aborts` case of `Run`.

Behaviour of the code worth knowing when reading the contracts:

- A zero leftover still gets its two remainder draws, with a zero-extent
  section. So a rectangle always gets `2*(height/vh) + 2*(width/hw) + 4` draws
  (`Tiling.RectangleCallCount`).
- `GlConstants::load` accepts a limit of 0. Only a negative answer is fatal.
- A readback whose byte count fits in a usize can still abort. The buffer is
  reserved with `Vec::with_capacity`, which panics above `isize::MAX` bytes.
  A 2^31-1 square texture passes the checked multiplications but aborts there.
- A failed draw returns `Err(ErrDontCare)` and carries nothing. The model's
  `DrawFailed(index)` names the draw's position, and that position always
  equals the length of the log.

## Model

| member | source | states |
|---|---|---|
| `Tiling.Mat` | examples/rectangles.rs:107-114 | the modulation matrix is diagonal: red, green and blue channels of the colour, 1 for alpha, 0 elsewhere |
| `Tiling.MatInjective` | examples/rectangles.rs:107-114 | an extra sanity property, not a promise of the program: different colours give different modulation matrices |
| `Rectangles.CountedTiles` | examples/rectangles.rs:125-128 | the counting loop runs while at least one tile is left; it stops after exactly `length / tile` subtractions, leaving `length % tile` |
| `Rectangles.DrawRectangles` | examples/rectangles.rs:116-233 | the log is the longest failure-free prefix of `Plan`; `Done` exactly when the whole plan was issued, otherwise the next planned draw is the one that failed and it is not logged |
| `Rectangles.DrawVerticalEdges` | examples/rectangles.rs:124-173 | issues the vertical full pairs and the vertical remainder pair in order (`VerticalCalls`), stopping at the first rejected draw |
| `Rectangles.DrawHorizontalEdges` | examples/rectangles.rs:175-229 | issues the horizontal full pairs and the horizontal remainder pair in order (`HorizontalCalls`), stopping at the first rejected draw |
| `Rectangles.DrawPair` | examples/rectangles.rs:130-149 | of two `ctx.draw(..)?` calls the second is issued only when the first was accepted; the log grows by the accepted prefix |
| `Rectangles.Draw` | examples/rectangles.rs:130-138 | a draw is logged exactly when the driver accepts it |
| `Tiling.RectangleCallCount` | examples/rectangles.rs:127-229 | one rectangle issues `2*(height/vh) + 2*(width/hw) + 4` draws, the four remainder draws included even when a leftover is 0 |
| `Tiling.VerticalTilePlacement` | examples/rectangles.rs:124-150 | the k-th full vertical pair sits at y = `y + height - k*vh`; the left copy at x is unflipped, the right copy at `x + width - vw` is the only one with `flip_horizontally` |
| `Tiling.VerticalRemainderPlacement` | examples/rectangles.rs:152-173 | after the full pairs, the section at offset `(0, vh - rest)` and extent `(vw, rest)`, with `rest = height % vh < vh`, is drawn at `(x, y)` and, flipped, at `(x + width - vw, y)`; it lies inside the tile |
| `Tiling.HorizontalTilePlacement` | examples/rectangles.rs:175-205 | the k-th full horizontal pair sits at x = `x + width - k*hw`; the bottom copy at `y + height - hh` is unflipped, the top copy at y is the only one with `flip_vertically` |
| `Tiling.HorizontalRemainderPlacement` | examples/rectangles.rs:207-229 | the last two draws use the section at offset `(hw - rest, 0)` and extent `(rest, hh)`, with `rest = width % hw`, at x on the bottom row and, flipped vertically, on the top row |
| `Tiling.RectangleTinted` | examples/rectangles.rs:130-229 | every draw for a rectangle carries `mat` of that rectangle's colour |
| `Tiling.RectangleSectionsInside` | examples/rectangles.rs:152-210 | every section a rectangle draws lies inside its tile texture |
| `Tiling.VerticalEdgePartition` | examples/rectangles.rs:125-173 | on each side edge a row is covered by the remainder or a full tile exactly when it lies in `[y, y + height)`, and by only one of them |
| `Tiling.HorizontalEdgePartition` | examples/rectangles.rs:177-229 | on the bottom and top edges a column is covered by the remainder or a full tile exactly when it lies in `[x, x + width)`, and by only one of them |
| `Tiling.PlanConcat` | examples/rectangles.rs:123-230 | composing two runs of rectangles issues the first run's draws, then the second's |
| `Tiling.PlanSplit` | examples/rectangles.rs:123-230 | rectangles are drawn in deque order: rectangle i's draws follow those of all rectangles before it |
| `Tiling.PlanLength` | examples/rectangles.rs:123-230 | a run of rectangles issues the sum of the per-rectangle draw counts |
| `Tiling.FortyByForty` | examples/rectangles.rs:124-229 | a 40x40 rectangle with 16x16 tiles gets two full tiles per edge plus a remainder of 8, taken from the far side of the tile |
| `GlBackend.GetLimit` | src/backend/mod.rs:31-43 | a negative queried limit aborts with its name and value; a non-negative one passes unchanged |
| `GlBackend.Load` | src/backend/mod.rs:30-58 | aborts exactly on the first negative limit in query order; otherwise each component of `max_texture_size` is the least of the texture, renderbuffer and matching framebuffer limits |
| `GlBackend.ByteCount` | src/backend/mod.rs:131-139 | the two checked multiplications succeed exactly when `width*height*4` fits in a usize, and then give that product |
| `GlBackend.PixelCountFits` | src/backend/mod.rs:131-132 | on a 64-bit target `height*width` never overflows; only the multiplication by 4 can |
| `GlBackend.ByteCountLimit` | src/backend/mod.rs:170-178 | the byte count of a 2^31-1 square texture fits in a usize; that of a 2^31 square one does not |
| `GlBackend.ErrorsRead` | src/backend/mod.rs:260-270 | `update_program` reads one or two error codes |
| `GlBackend.UseProgramOutcome` | src/backend/mod.rs:259-272 | `NO_ERROR` gives `Ok`; `INVALID_OPERATION` then `NO_ERROR` gives `Err`; `INVALID_OPERATION` then any other code, or any other first code, aborts and reports that code |
| `GlBackend.UseProgramOutcomeReadsOnly` | src/backend/mod.rs:260-270 | the outcome depends only on the error codes actually read |
| `GlBackend.Backend.constructor` | src/backend/mod.rs:94-113 | a backend starts with the given bindings and limits and an empty command log |
| `GlBackend.Backend.Initialize` | src/backend/mod.rs:104-113 | aborts exactly when `Load` of the four limit answers aborts, with the same report; otherwise a fresh backend whose `constants` are what `Load` returned |
| `GlBackend.Backend.UpdateFramebufferBinding` | src/backend/mod.rs:142 | afterwards the requested framebuffer is bound and the texture binding is unchanged |
| `GlBackend.Backend.UpdateTextureBinding` | src/backend/mod.rs:182 | afterwards the requested texture is bound and the framebuffer binding is unchanged |
| `GlBackend.Backend.TakeScreenshot` | src/backend/mod.rs:130-164 | a byte count above the usize range aborts with the screen report; one above `isize::MAX` aborts with a capacity overflow; both abort before any command; otherwise framebuffer 0 is bound before `ReadPixels` and exactly `width*height*4` bytes are returned |
| `GlBackend.Backend.GetImageData` | src/backend/mod.rs:166-202 | a byte count above the usize range aborts with the texture report; one above `isize::MAX` aborts with a capacity overflow; both abort before any command; otherwise the texture's id is bound before `GetTexImage` and exactly `width*height*4` bytes are returned |
| `GlBackend.Backend.ClearDepth` | src/backend/mod.rs:204-214 | binds the framebuffer, then clears depth; always `Ok` |
| `GlBackend.Backend.ClearColor` | src/backend/mod.rs:216-232 | binds the framebuffer, then sets the clear colour, then clears the colour buffer; always `Ok` |
| `GlBackend.Backend.FinalizeFrame` | src/backend/mod.rs:234-238 | swaps buffers, binds framebuffer 0, then clears depth on framebuffer 0; afterwards framebuffer 0 is bound; a failed swap aborts |
| `GlBackend.Backend.UpdateProgram` | src/backend/mod.rs:252-273 | issues `UseProgram`, then one `GetError`, and a second only after `INVALID_OPERATION`; the result is `UseProgramOutcome` of the answers |

## Left out

- Window and context creation (the rest of `Backend::initialize`: the glutin context, `gl::load_with`, `gl::Enable(gl::BLEND)`, the programs and `OpenGlState::new`), `resize_window`, `window`, `window_dimensions`, and the accessors `constants` and `events_loop`. These are foreign calls and windowing glue.
- The binding cache `OpenGlState` (src/backend/state.rs is not part of this model). `UpdateFramebufferBinding` and `UpdateTextureBinding` only record the request and the new binding. Nothing is claimed about whether a driver bind is issued or elided.
- The effects of the driver calls (`ReadPixels`, `GetTexImage`, `Clear`, `ClearColor`, `UseProgram`, `swap_buffers`). They appear only as entries in the command log. The bytes a readback writes are the parameter `pixels`.
- Floating-point values. The channels of `mat`'s matrix and the RGBA of `clear_color` are opaque tags.
- The `main` loop of examples/rectangles.rs (spawning with a random generator, event polling, scrolling and popping the deque) and `FrameRateLimiter`. These are application glue over randomness, I/O and wall-clock time.
- The internals of `Texture::get_section`, of `ctx.draw` and of the draw target `surface` (its offset and scaling). A draw call records the source, position and flags it was given. Whether a zero-extent section draws anything is not modelled.
- `DrawRectangles`: requires a positive vertical tile height and horizontal tile width. With a zero one, `checked_sub` always succeeds and the source loops forever unless a draw fails.
- `DrawRectangles`: positions are unbounded integers. The i32 overflow of `right_pos` and `horizontal_height`, and the wrap of `height as i32` and `horizontal_pos as i32` for sizes above `i32::MAX`, are not modelled.
- `TakeScreenshot` and `GetImageData`: an allocation that is within the capacity limit is assumed to succeed. Running out of memory is not modelled.
- `ByteCount`: `usize` is taken to be 64 bits wide. On a 32-bit target the first multiplication can overflow too.
- `DrawRectangles`: a draw the driver rejects is not entered in the log. The model does not say whether the driver saw part of it.
