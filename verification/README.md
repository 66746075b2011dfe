# Wayland ⇄ iced bridge: a verified model

This project models the core of a small Rust library. The library hosts iced user interfaces on Wayland surfaces through smithay-client-toolkit and wgpu. The model covers three parts and proves their promises:

- **The input translator** (`WaylandToIcedInput`, module `InputHandler`).
  - A state machine over the current modifier set, the last pointer position, the screen size and a FIFO queue of iced events.
  - Pointer, keyboard and modifier handlers append to the queue; `TakeEvents` drains it.
  - Around it sit the pure lookup tables from X11 keysyms to iced logical keys, key locations and physical key codes, and the table for the three mouse buttons (modules `Keysyms`, `LogicalKeyMap`, `PhysicalKeyMap`, `ButtonMap`).
  - Module `KeyMapLaws` proves properties across the tables.
- **The render and frame-pacing controller** (`IcedSurfaceState`, module `IcedContainers`) and the four container kinds (window, layer surface, popup, subsurface), modelled as one class `IcedContainer` with a kind tag.
  - Geometry is integer: sizes and scale are clamped to at least one, and physical sizes use a saturating multiply.
  - A render drains the input queue, appends one redraw request, runs one UI pass, and presents. It asks for the next frame callback only when input was drained.
  - The cursor shape is sent only when the interaction changes. UI messages are applied in order before the UI is rebuilt.
  - The GPU, the compositor and the iced widget tree are opaque collaborators:
    - the UI is three functions fixed at construction;
    - the requests made of the GPU and the compositor go to a ghost effect log;
    - frame pacing is stated over that log.
- **The plain surface registry** (`Application` in `src/common.rs`, module `Registry`).
  - A sequence of tracked windows: create appends, close removes by index with a bounds check.
  - A configure updates the first window of the right kind on the right surface, and leaves everything unchanged when none matches.
  - The shared-memory pool is created lazily, and the buffer canvas is filled in place with one ARGB pixel, chunk by chunk.
  - `ListWindows` tags each entry with its index. A round-trip lemma reads the index back.

Shared pieces:

- `Ints`: Rust's `u32` and `i32` as subset types of `int`, `saturating_mul`, `max(1)` and the `i32 as u32` cast, each written out.
- `IcedKeyboard`, `IcedMouse`, `IcedEvents`, `NamedKeys`, `KeyCodes`: the parts of iced's event vocabulary the code produces.
- `Wrappers`: `Option`.

Some behaviour a reader might expect is absent from the code, and the model follows the code:

- the logo/super key is never put in the modifier set;
- no clipboard shortcut is intercepted;
- a key repeat gets no fallback text;
- control characters are not filtered out of key text;
- a negative popup size is cast to `u32` rather than replaced by the previous size;
- a popup's `done` does nothing.

## Model

| member | source | states |
|---|---|---|
| Ints.SaturatingMul | src/iced/iced_containers.rs:229-236 | `u32::saturating_mul`: the exact product when it fits, otherwise `u32::MAX`; never more than the product |
| Ints.SaturatingMulAtLeastOperand | src/iced/iced_containers.rs:359-361 | scaling by a factor of at least one never shrinks a size, even when the product saturates |
| Ints.AtLeastOne | src/iced/iced_containers.rs:150-152 | `max(1)`: at least one and at least the input; the input itself when it is already at least one |
| Ints.I32AsU32 | src/iced/iced_containers.rs:595-596 | the `i32 as u32` cast: congruent modulo 2^32, the identity on non-negative values, at least 2^31 on negative ones |
| Ints.I32AsU32Injective | src/iced/iced_containers.rs:595-596 | the cast loses no information: different signed values give different unsigned values |
| LogicalKeyMap.KeysymToIcedKey | src/iced/iced_input_handler.rs:196-431 | the full logical-key table; it never yields a character key |
| LogicalKeyMap.UnlistedKeysymsAreUnidentified | src/iced/iced_input_handler.rs:196-431 | a keysym has a named logical key exactly when the table lists it (`InNamedKeyTable`); every other keysym gives `Unidentified` |
| LogicalKeyMap.KeysymLocation | src/iced/iced_input_handler.rs:433-478 | Left exactly for the five `_L` modifiers, Right exactly for the five `_R` modifiers, Numpad exactly for the 35 keypad keysyms, Standard exactly for every other keysym |
| LogicalKeyMap.KeysymToIcedKeyAndLoc | src/iced/iced_input_handler.rs:480-484 | pairs the logical key with the location of the same keysym |
| PhysicalKeyMap.KeysymToPhysicalKey | src/iced/iced_input_handler.rs:499-700 | the full physical-code table (`TableCode`); a result that is not a known code is `Unidentified` carrying the raw code as its xkb native code; totality of the fallback is stated by `UnlistedKeysymsKeepRawCode` |
| PhysicalKeyMap.UnlistedKeysymsKeepRawCode | src/iced/iced_input_handler.rs:499-700 | a keysym has a known key code exactly when the physical-code table lists it (`InPhysicalKeyTable`); every other keysym gives `Unidentified(Xkb(raw_code))`, carrying the raw code unchanged |
| ButtonMap.WaylandButtonToIced | src/iced/iced_input_handler.rs:486-497 | 0x110 gives Left, 0x111 gives Right, 0x112 gives Middle; a button is recognised exactly for these three codes |
| ButtonMap.WaylandButtonToIcedInjective | src/iced/iced_input_handler.rs:486-497 | different recognised codes give different buttons |
| KeyMapLaws.SidedKeysAreModifiers | src/iced/iced_input_handler.rs:433-440 | a keysym located Left or Right stands for Shift, Control, Alt, Super or Hyper |
| KeyMapLaws.SidedModifierPairs | src/iced/iced_input_handler.rs:312-322 | each `_L`/`_R` modifier pair shares one logical key and sits Left/Right; four pairs have distinct physical codes, while both Hyper keys fall back to the raw code |
| KeyMapLaws.KeypadMirrorsMainBlock | src/iced/iced_input_handler.rs:257-270 | the keypad's navigation and editing keysyms give the same named key as the main block, located on the numpad |
| KeyMapLaws.KeypadDigitsHaveNoNamedKey | src/iced/iced_input_handler.rs:441-450 | keypad digits have no named logical key, are located on the numpad and have their own physical codes |
| KeyMapLaws.LetterCaseSharesPhysicalKey | src/iced/iced_input_handler.rs:514-539 | a lower-case letter and its upper-case form map to the same physical code |
| KeyMapLaws.PrintableKeysymsAreUnidentified | src/iced/iced_input_handler.rs:427 | printable Latin keysyms other than space have no named logical key and a standard location |
| KeyMapLaws.PhysicalKeyUsesRawCodeOnlyAsFallback | src/iced/iced_input_handler.rs:696 | a known physical code does not depend on the raw code; an unknown one is exactly the raw code |
| InputHandler.PointerEventsFor | src/iced/iced_input_handler.rs:57-119 | each pointer event yields at most one mouse event, and none exactly for an unknown button or a scroll with no whole step; enter, leave and motion yield CursorEntered, CursorLeft and CursorMoved(position); a known press yields ButtonPressed and a known release ButtonReleased of the mapped button; a scroll yields WheelScrolled(Lines(h, v)) of the discrete steps |
| InputHandler.PointerPosAfter | src/iced/iced_input_handler.rs:60-73 | enter and motion move the pointer to the event position; every other kind keeps it |
| InputHandler.ModifiersFromWayland | src/iced/iced_input_handler.rs:169-185 | Shift, Ctrl and Alt are present exactly when reported; Logo never is |
| InputHandler.ModifiersExactlyReported | src/iced/iced_input_handler.rs:169-185 | for every modifier: in the set exactly when the compositor reports it held and it is not the logo key |
| InputHandler.KeyEventFor | src/iced/iced_input_handler.rs:136-167 | press gives KeyPressed and release gives KeyReleased; both carry the table key (also as modified key), location, physical key and current modifiers; a press also carries the event's text and the repeat flag |
| InputHandler.PressAndReleaseAgree | src/iced/iced_input_handler.rs:81-98 | press and release of one code are both dropped or both reported, naming the same button |
| InputHandler.KnownButtonsArePressed | src/iced/iced_input_handler.rs:81-89 | a press of 0x110–0x112 yields exactly one ButtonPressed with the mapped button; different codes give different events |
| InputHandler.ScrollUsesOnlyDiscreteSteps | src/iced/iced_input_handler.rs:100-117 | a scroll yields WheelScrolled(Lines(h.discrete, v.discrete)) when a step is non-zero, independent of the continuous amounts and the position |
| InputHandler.PressAndReleaseDescribeSameKey | src/iced/iced_input_handler.rs:147-166 | press and release of one key agree on the logical key, physical key, location and modifiers; the release is the press minus text and repeat flag |
| InputHandler.UnknownKeysKeepRawCode | src/iced/iced_input_handler.rs:139 | a key without a known physical code reaches iced with its raw code as the native code |
| InputHandler.ModifiersIgnoreLocksAndLogo | src/iced/iced_input_handler.rs:175-184 | caps lock, num lock and logo never change the modifier set, which is always a subset of {Shift, Ctrl, Alt} |
| InputHandler.WaylandToIcedInput.constructor | src/iced/iced_input_handler.rs:35-46 | no modifiers, pointer at the origin, empty queue, a 256×256 screen, no remembered text |
| InputHandler.WaylandToIcedInput.SetScreenSize | src/iced/iced_input_handler.rs:48-51 | sets the two size fields and changes nothing else, in particular not the queue |
| InputHandler.WaylandToIcedInput.SetPointerPosition | src/iced/iced_input_handler.rs:53-55 | overwrites the pointer position only |
| InputHandler.WaylandToIcedInput.HandlePointerEvent | src/iced/iced_input_handler.rs:57-119 | the queue becomes the old queue followed by `PointerEventsFor(e)`; the pointer moves per `PointerPosAfter`; nothing else changes |
| InputHandler.WaylandToIcedInput.TakeEvents | src/iced/iced_input_handler.rs:121-123 | returns every queued event in push order and leaves the queue empty |
| InputHandler.WaylandToIcedInput.HandleKeyboardEnter | src/iced/iced_input_handler.rs:125-129 | changes nothing |
| InputHandler.WaylandToIcedInput.HandleKeyboardLeave | src/iced/iced_input_handler.rs:131-134 | changes nothing |
| InputHandler.WaylandToIcedInput.HandleKeyboardEvent | src/iced/iced_input_handler.rs:136-167 | appends exactly one keyboard event, built with the modifiers held at that moment; nothing else changes |
| InputHandler.WaylandToIcedInput.UpdateModifiers | src/iced/iced_input_handler.rs:169-185 | replaces the modifier set, without merging, by exactly the reported Shift/Ctrl/Alt; nothing else changes |
| InputHandler.WaylandToIcedInput.GetModifiers | src/iced/iced_input_handler.rs:187-189 | returns the current modifiers |
| InputHandler.WaylandToIcedInput.GetPointerPosition | src/iced/iced_input_handler.rs:191-193 | returns the last pointer position |
| IcedContainers.IcedToCursorShape | src/iced/iced_containers.rs:674-708 | total; gives the default shape exactly for Idle, None and Hidden |
| IcedContainers.CursorShapeRoundTrip | src/iced/iced_containers.rs:674-708 | an interaction with a shape of its own can be recovered from the shape |
| IcedContainers.CursorShapeCollisions | src/iced/iced_containers.rs:674-708 | two different interactions share a shape only when it is the default one |
| IcedContainers.UnusedShapes | src/iced/iced_containers.rs:674-708 | vertical text and the eight single-edge resize shapes are never requested |
| IcedContainers.ApplyAll | src/iced/iced_containers.rs:311-313 | the message loop as a fold: no messages leave the app unchanged and a single message is one call of `update` (ordering over longer batches by ApplyAllAppend and ApplyAllFirst) |
| IcedContainers.ApplyAllAppend | src/iced/iced_containers.rs:311-313 | applying two message batches in turn equals applying their concatenation |
| IcedContainers.ApplyAllFirst | src/iced/iced_containers.rs:311-313 | the first message is applied to the original app state, and the rest to its result |
| IcedContainers.CursorUpdate | src/iced/iced_containers.rs:282-291 | a shape is requested exactly when an Updated interaction differs from the stored one; the stored interaction then follows the report |
| IcedContainers.CursorUpdateIdempotent | src/iced/iced_containers.rs:282-291 | the same report twice requests the shape at most once |
| IcedContainers.CursorEffects | src/iced/iced_containers.rs:289 | the effect log gets a SetCursor exactly for the requested shape |
| IcedContainers.FramePacing | src/iced/iced_containers.rs:224-226 | the frame callback and commit are requested exactly after input |
| IcedContainers.RenderEffects | src/iced/iced_containers.rs:203-227 | a render starts by acquiring the texture, always draws and presents, requests a frame and commits exactly when there was input and only after presenting, sets the cursor exactly on a change, and draws nothing after presenting |
| IcedContainers.SurfaceExtent | src/iced/iced_containers.rs:359-361 | the configured extent is at least one, at least the logical size, and the saturating product once the size is at least one |
| IcedContainers.SurfaceMatchesViewport | src/iced/iced_containers.rs:229-236 | once the size is at least one, the configured surface and the viewport agree on the physical size |
| IcedContainers.ConfigureSize | src/iced/iced_containers.rs:444-451 | a window defaults a missing extent to 256; a layer surface and a subsurface pass their size through; a popup casts its signed size |
| IcedContainers.WindowSizeNeverZero | src/iced/iced_containers.rs:445-446 | a window is never asked for a zero extent |
| IcedContainers.PopupSizeCast | src/iced/iced_containers.rs:595-596 | a non-negative popup extent is kept; a negative one wraps to at least 2^31 |
| IcedContainers.IcedSurfaceState.constructor | src/iced/iced_containers.rs:133-147 | 256×256 at scale 1, not configured, default (None) interaction, fresh input translator with no modifiers, the pointer at the origin, an empty queue, a 256×256 screen and no text |
| IcedContainers.IcedSurfaceState.PhysicalScale | src/iced/iced_containers.rs:376-378 | the stored factor clamped to at least one |
| IcedContainers.IcedSurfaceState.CreateViewport | src/iced/iced_containers.rs:229-236 | the physical size is the logical size times the physical scale, saturated and never below the logical size |
| IcedContainers.IcedSurfaceState.UiOutcome | src/iced/iced_containers.rs:257-334 | with no messages the app is untouched and the pass's cache kept; otherwise the messages are applied in order and the cache comes from the rebuilt UI; the cursor bookkeeping is `CursorUpdate` |
| IcedContainers.IcedSurfaceState.CollectEvents | src/iced/iced_containers.rs:238-248 | the drained queue followed by exactly one redraw request; the flag is true exactly when the queue was non-empty; the queue is left empty |
| IcedContainers.IcedSurfaceState.UpdateAndDraw | src/iced/iced_containers.rs:257-334 | the message loop's result equals `UiOutcome`; the log gets the cursor request, if any, then a draw |
| IcedContainers.IcedSurfaceState.ReconfigureSurface | src/iced/iced_containers.rs:359-374 | records a surface configuration of `SurfaceExtent` per axis; the configuration is present afterwards |
| IcedContainers.IcedSurfaceState.Render | src/iced/iced_containers.rs:203-227 | the state and log reached are `RenderedFrom` the drained input: one UI pass, one render's effects, empty queue; geometry unchanged |
| IcedContainers.IcedSurfaceState.Configure | src/iced/iced_containers.rs:150-160 | width and height become `max(w,1)` and `max(h,1)` and go to the input translator; the surface is reconfigured, then rendered |
| IcedContainers.IcedSurfaceState.Frame | src/iced/iced_containers.rs:162-164 | renders |
| IcedContainers.IcedSurfaceState.HandlePointerEvent | src/iced/iced_containers.rs:166-169 | queues the pointer event's translation, then renders from the extended queue |
| IcedContainers.IcedSurfaceState.HandleKeyboardEnter | src/iced/iced_containers.rs:171-174 | renders |
| IcedContainers.IcedSurfaceState.HandleKeyboardLeave | src/iced/iced_containers.rs:176-179 | renders |
| IcedContainers.IcedSurfaceState.HandleKeyboardEvent | src/iced/iced_containers.rs:181-185 | queues the one keyboard event, then renders |
| IcedContainers.IcedSurfaceState.UpdateModifiers | src/iced/iced_containers.rs:187-190 | replaces the modifier set, then renders |
| IcedContainers.IcedSurfaceState.RecordBufferScale | src/iced/iced_containers.rs:193 | `set_buffer_scale`: the given factor is sent to the compositor as it is, and the app, cache, interaction and geometry are unchanged |
| IcedContainers.IcedSurfaceState.ScaleFactorChanged | src/iced/iced_containers.rs:192-201 | always sends the raw factor as buffer scale; a clamped factor equal to the stored one changes nothing else; otherwise it is stored, the surface reconfigured and rendered |
| IcedContainers.IcedContainer.constructor | src/iced/iced_containers.rs:387-392 | a new controller whose size is the given one, not clamped, while its input translator keeps its own initial 256×256 screen, no modifiers, the pointer at the origin, an empty queue and no text |
| IcedContainers.IcedContainer.Configure | src/iced/iced_containers.rs:444-451 | sends the stored scale factor as buffer scale first, then configures the surface with `ConfigureSize` of the payload; the modifiers and the pointer position are kept |
| IcedContainers.IcedContainer.ScaleFactorChanged | src/iced/iced_containers.rs:396-398 | the raw factor always goes out as buffer scale; an unchanged clamped factor leaves app, cache, interaction, geometry and queue as they were; otherwise the factor is stored, the surface reconfigured and rendered; the size and the input settings are kept either way |
| IcedContainers.IcedContainer.Frame | src/iced/iced_containers.rs:400-402 | renders from the queued input; geometry, surface configuration and input settings are kept |
| IcedContainers.IcedContainer.Enter | src/iced/iced_containers.rs:406-408 | renders from the queued input; geometry and input settings are kept |
| IcedContainers.IcedContainer.Leave | src/iced/iced_containers.rs:410-412 | renders from the queued input; geometry and input settings are kept |
| IcedContainers.IcedContainer.PressKey | src/iced/iced_containers.rs:414-416 | queues the key as a press that is not a repeat, then renders; geometry and input settings are kept |
| IcedContainers.IcedContainer.ReleaseKey | src/iced/iced_containers.rs:418-420 | queues the key as a release, then renders; geometry and input settings are kept |
| IcedContainers.IcedContainer.RepeatKey | src/iced/iced_containers.rs:426-428 | queues the key as a press with the repeat flag set, then renders; geometry and input settings are kept |
| IcedContainers.IcedContainer.UpdateModifiers | src/iced/iced_containers.rs:422-424 | replaces the modifier set by the reported one, then renders; geometry, pointer position and screen size are kept |
| IcedContainers.IcedContainer.PointerFrame | src/iced/iced_containers.rs:432-434 | queues the pointer event's translation and moves the pointer per `PointerPosAfter`, then renders; geometry, modifiers and screen size are kept |
| IcedContainers.IcedContainer.Done | src/iced/iced_containers.rs:599 | a popup's dismissal changes nothing |
| Registry.NewWindow | src/common.rs:64-71 | a created window is 256×256 at scale 1 with no pointer theme and no buffer |
| Registry.FirstMatch | src/common.rs:233-235 | the first index whose window has this kind on this surface; none exactly when no window matches |
| Registry.SolidPixelsAreOpaque | src/common.rs:251-259 | every pixel of the filled canvas reads as the opaque ARGB colour 0xFFC08030 |
| Registry.FillCanvas | src/common.rs:251-259 | every whole 4-byte chunk becomes [0x30, 0x80, 0xC0, 0xFF]; a trailing partial chunk is untouched |
| Registry.PoolAfter | src/common.rs:241-244 | the pool is created with size `w*h*4` only when absent; an existing pool is reused |
| Registry.ConfigureRequests | src/common.rs:236-267 | starts with the screen size, creates the pool only when absent, and ends with create buffer (stride `4w`), damage, frame callback, attach and commit |
| Registry.EntryIndexRoundTrip | src/common.rs:96-103 | the index can be read back from each list entry |
| Registry.EntriesDistinct | src/common.rs:96-103 | entries at different indices differ |
| Registry.Application.constructor | src/common.rs:34-44 | no windows and no pool |
| Registry.Application.CreateLayerSurface | src/common.rs:64-72 | appends exactly one new 256×256 layer-surface window; the others are unchanged |
| Registry.Application.CreateXdgWindow | src/common.rs:84-92 | appends exactly one new 256×256 xdg window; the others are unchanged |
| Registry.Application.ListWindows | src/common.rs:96-103 | one entry per window, in index order, each `Entry(i, window)` |
| Registry.Application.CloseWindow | src/common.rs:106-114 | in range: returns `Some(())` and removes exactly that window, keeping the others in order; out of range: returns `None` and changes nothing |
| Registry.Application.AttachSolidBuffer | src/common.rs:236-267 | the window gets the new size and a fresh, fully painted buffer of stride `4w`; the other windows are unchanged; the pool and the requests follow `PoolAfter` and `ConfigureRequests` |
| Registry.Application.ConfigureFirst | src/common.rs:233-271 | only the first window of the given kind on the given surface is configured; with no match nothing changes |
| Registry.Application.ConfigureLayerSurface | src/common.rs:215-272 | configures the first matching layer surface with the size as given; only that window changes, it gets a freshly allocated canvas, and the pool and requests follow the buffer allocation |
| Registry.Application.ConfigureWindow | src/common.rs:281-338 | configures the first matching xdg window, with a missing extent defaulting to 256; only that window changes and it gets a freshly allocated canvas of at least 1x1 |

## Left out

- GPU and wgpu: instance, adapter and device negotiation, surface creation, texture acquisition, the renderer and presenting (src/iced/iced_containers.rs:73-148, 336-351). These are recorded only as effects in the log.
- iced internals: building, updating, drawing and caching the widget tree are three opaque functions. `interact` covers the build, the update and the return to the cache. Whether drawing happens before or after the cache is taken back is not distinguished.
- Wayland transport and shared memory: frame callbacks, commits, damage, attach, buffer scale and cursor requests are recorded only as entries in the effect logs. Proxy identities are natural numbers.
- Timestamps (`Instant`), the clipboard handle, global application access and logging are left out. The unused `last_key_utf8` field is kept but never read, as in the code.
- IcedContainers.IcedSurfaceState.CreateViewport: the viewport scale is an integer, not the `f32` the code builds, and the logical size derived from it is not modelled.
- InputHandler.PointerEventsFor: positions are copied as reals, not narrowed to `f32`. Scroll steps are integers, not converted to `f32`.
- IcedContainers.IcedSurfaceState.Render: the cursor position is passed to the UI as the translator's position, without the `f32` narrowing.
- InputHandler.KeyEventFor: text is passed through as given. The key text is never a character key, because the tables never produce one.
- Registry: the input handlers of `Application` (pointer frame, key press/release, modifiers) pass events to an `InputState` value, which is not part of this model.
- Registry: `Application`'s compositor callbacks are left out. `scale_factor_changed` only requests a frame callback and commits the surface (src/common.rs:117-129). `frame`, `transform_changed`, `surface_enter`, `surface_leave`, the output callbacks and the layer `closed` callback do nothing.
- Registry.Application.AttachSolidBuffer: the pool size `w*h*4` and the stride `w as i32 * 4` are computed on unbounded integers. Their `usize`/`i32` overflow is not modelled. Buffer creation is assumed to succeed, and the pool is assumed to always give the new buffer's canvas. The canvas is a fresh array rather than a slice of the pool's memory.
- Registry.Application.CreateLayerSurface: the protocol requests that set up the surface are not modelled (anchor, keyboard interactivity, size, commit). Only the tracked window is.
- Registry.Application.CreateXdgWindow: the protocol requests that set up the window are not modelled (title, app id, minimum size, commit). Only the tracked window is.
- The tracked windows are values in a sequence. The source updates them in place through a mutable iterator, which this model does not capture.
- IcedContainers.IcedSurfaceState.constructor: the default interaction is taken to be iced's `Interaction::None`.
- The container traits of src/containers.rs, src/common_window.rs, src/egui_impl.rs, src/lib.rs and the examples carry no behaviour beyond delegation. They are not part of this model.
- IcedContainers.IcedContainer.Configure: the payload is required to match the container kind. In the source, each kind's configure takes its own payload type.
