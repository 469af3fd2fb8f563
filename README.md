# Iris viewer core, modelled in Dafny

Iris is an image viewer. Each frame it draws the current image into an
off-screen GPU texture as a textured quad and reads the result back into a
CPU buffer. It then hands the result to a GTK picture widget. This project
models the sequential logic around that loop:

- **`Renderer`** (`renderer.dfy`) is the bookkeeping of `IrisRenderer`. It
  covers the output texture's extent, the row stride of the readback buffer
  (`width * 4` padded to a multiple of 256) and that buffer's size. It also
  covers the reallocate-only-on-change rule of `resize`, the image
  dimensions `load_image` records, and the aspect-preserving image scale
  `render` computes.
- **`Camera`** (`camera.dfy`, on top of `Glam`, `glam.dfy`) covers the
  guarded aspect-ratio update and the view-projection matrix
  `orthographic × scale(zoom) × translate(-position)`. The matrix is stated
  by where it sends every world point.
- **`Viewport`** (`viewport.dfy`) is the controller in `viewport/mod.rs`. A
  renderer slot starts empty and is later filled with a 1x1 renderer. The
  tick clamps the widget size and resizes the renderer and camera together.
  It then renders exactly once and publishes the frame when the readback's
  oneshot channel delivers the mapping callback's value. The image-load
  continuation ignores decode errors.
- **`AppState`** (`app_state.dfy`, on top of `Paths`, `paths.dfy`) is the
  navigation state in `main.rs`: the file list with cyclic `next`/`prev`,
  the per-path rotation kept in {0, 90, 180, 270}, and `load_directory`.
  `load_directory` filters the directory listing by extension, sorts it and
  locates the opened file.

GPU objects are tokens that carry only the extents and sizes the
bookkeeping depends on. Floating-point values are `real`. The renderer
keeps a reallocation counter and a log of the submissions it rendered
(uniforms, bind group and copy layout). Both are model-only state that
stand for the GPU allocations and submissions.

## Model

| member | source | states |
|---|---|---|
| Glam.Mul | src/viewport/camera.rs:31-34 | glam's `Mat4 * Mat4`: column j of the product is the left matrix applied to column j of the right; defined by its body |
| Glam.FromScale | src/viewport/camera.rs:31 | `Mat4::from_scale`: defined by its body; its action on points is `Glam.FromScalePointMap` |
| Glam.FromTranslation | src/viewport/camera.rs:32 | `Mat4::from_translation`: defined by its body; its action on points is `Glam.FromTranslationPointMap` |
| Glam.Orthographic | src/viewport/camera.rs:27-28 | `Mat4::orthographic_rh`: defined by its body (the assumed formula); its action on points is `Glam.OrthographicPointMap` |
| Glam.FromScalePointMap | src/viewport/camera.rs:31 | `Mat4::from_scale(zoom, zoom, 1)` multiplies each coordinate of a point by its factor |
| Glam.FromTranslationPointMap | src/viewport/camera.rs:32 | `Mat4::from_translation(-x, -y, 0)` adds the offset to every point |
| Glam.OrthographicPointMap | src/viewport/camera.rs:27-28 | `orthographic_rh` maps [left, right] x [bottom, top] linearly onto [-1, 1]^2 and depth -near..-far onto 0..1 (the formula is assumed) |
| Camera.Projection | src/viewport/camera.rs:27-28 | the camera's `orthographic_rh(-a, a, -1, 1, -1, 1)`: defined by its body; its action on points is `Camera.ProjectionPointMap` and its half-extents are `Camera.ProjectionHalfExtents` |
| Camera.View | src/viewport/camera.rs:30-32 | `from_scale(zoom, zoom, 1) * from_translation(-x, -y, 0)`: defined by its body; its action on points is `Camera.ViewPointMap` |
| Camera.ViewProjection | src/viewport/camera.rs:34 | `projection * view` for a camera's position, zoom and aspect: defined by its body; its action on points is `Camera.ProjectViewPoint` |
| Camera.Camera.BuildViewProjectionMatrix | src/viewport/camera.rs:25-35 | the matrix of this camera's fields: defined by its body; its action on points is `Camera.ViewProjectionComposes` and `Camera.ViewProjectionPointMap` |
| Camera.ProjectionPointMap | src/viewport/camera.rs:27-28 | the camera's projection divides x by the aspect ratio, keeps y, and sends depth z to (1 - z) / 2 |
| Camera.ViewPointMap | src/viewport/camera.rs:30-32 | the view matrix sends world p to zoom * (p - position) and keeps depth |
| Camera.ProjectionHalfExtents | src/viewport/camera.rs:27-28 | the horizontal half-extent is the aspect ratio and the vertical one is 1: (a, 1) and (-a, -1) land on the screen corners |
| Camera.Camera.constructor | src/viewport/camera.rs:11-17 | a new camera sits at (0, 0) with zoom 1 and aspect 1 |
| Camera.Camera.SetViewportSize | src/viewport/camera.rs:19-23 | with height > 0 the aspect ratio becomes width / height; with height 0 nothing changes; position and zoom are never touched |
| Camera.ProjectViewPoint | src/viewport/camera.rs:25-35 | projection after view sends world (x, y, z) to (zoom(x - px)/aspect, zoom(y - py), (1 - z)/2) |
| Camera.ViewProjectionComposes | src/viewport/camera.rs:25-35 | the camera's view-projection matrix acts on every point as the projection applied after the view |
| Camera.ViewProjectionPointMap | src/viewport/camera.rs:25-35 | the camera's view-projection matrix sends world (x, y, z) to (zoom(x - px)/aspect, zoom(y - py), (1 - z)/2) |
| Camera.PositionIsScreenCentre | src/viewport/camera.rs:25-35 | the camera position maps to the screen centre (for the default camera, world (0, 0) maps to (0, 0)) |
| Camera.VisibleHalfExtents | src/viewport/camera.rs:25-35 | position + aspect/zoom lands on the right edge (x = 1) and position + 1/zoom on the top edge (y = 1); for the default camera world (1, 0) maps to x = 1 |
| Renderer.PaddedBytesPerRow | src/viewport/renderer.rs:271-274 | the stride is a multiple of 256, at least width * 4, and less than width * 4 + 256 |
| Renderer.PaddedBytesPerRowIsLeast | src/viewport/renderer.rs:271-274 | the stride is the least multiple of 256 that holds a row |
| Renderer.AlignedRowIsNotPadded | src/viewport/renderer.rs:271-274 | a width that is a multiple of 64 pixels needs no padding |
| Renderer.CreateTargets | src/viewport/renderer.rs:254-284 | the texture has the requested extent, the stride is `PaddedBytesPerRow(width)` (so aligned and holding a row), and the buffer size is stride * height |
| Renderer.Reallocates | src/viewport/renderer.rs:287 | `resize` reallocates only for a non-empty extent other than the current one, and every non-empty request it skips names the current extent |
| Renderer.Resized | src/viewport/renderer.rs:286-295 | `resize` with both sides positive yields that extent; with a zero side the extent is unchanged |
| Renderer.ResizeIdempotent | src/viewport/renderer.rs:286-295 | resizing twice to the same extent equals resizing once, and the second call does not reallocate |
| Renderer.ReallocationCount | src/viewport/renderer.rs:286-295 | a sequence of resize calls reallocates at most once per call |
| Renderer.UnchangedRequestsDoNotReallocate | src/viewport/renderer.rs:287 | requests for the current extent or with a zero side never reallocate |
| Renderer.ImageScale | src/viewport/renderer.rs:302-309 | both scale components lie in (0, 1], one of them is 1, and the scale has the image's proportions |
| Renderer.ImageScaleUnique | src/viewport/renderer.rs:302-309 | those three properties determine the scale |
| Renderer.WideImageScale | src/viewport/renderer.rs:305-306 | for aspect a > 1 the scale is (1, 1/a) |
| Renderer.TallImageScale | src/viewport/renderer.rs:307-308 | for aspect a <= 1 the scale is (a, 1) |
| Renderer.IrisRenderer.constructor | src/viewport/renderer.rs:174-189 | `new` stores the requested extent and its stride, builds matching targets, and binds a 1x1 placeholder with `image_dims` (1, 1) |
| Renderer.IrisRenderer.LoadImage | src/viewport/renderer.rs:192-252 | `image_dims` becomes the image's sides and the bind group samples a texture of that extent; the output targets and stride are unchanged |
| Renderer.IrisRenderer.Resize | src/viewport/renderer.rs:286-295 | the extent becomes `Resized(old extent, w, h)` with targets and stride recomputed; one reallocation exactly when both sides are positive and differ from the old ones, none otherwise |
| Renderer.IrisRenderer.Render | src/viewport/renderer.rs:297-380 | the uniforms carry the camera's matrix and `ImageScale(image_dims)`; the copy uses the stride, the height and the extent; that submission is appended to the frame log, nothing else changes, and the renderer stays valid |
| Renderer.CopyFitsBuffer | src/viewport/renderer.rs:276-281 | in every valid renderer the copy's stride is aligned, holds a row, and stride * height is the buffer size |
| Renderer.ResizeSequence | src/viewport/renderer.rs:286-295 | a 100x100 renderer resized to 100x100 and then to 200x150 reallocates exactly once |
| Renderer.LoadTwice | src/viewport/renderer.rs:192-197 | loading image A and then image B leaves B's dimensions |
| Viewport.ClampDim | src/viewport/mod.rs:51-52 | a clamped side is at least 1, and is the widget's side whenever that is at least 1 |
| Viewport.Viewport.constructor | src/viewport/mod.rs:31-32 | the viewport starts with a default camera, an empty renderer slot and nothing shown |
| Viewport.Viewport.Initialize | src/viewport/mod.rs:36-40 | the empty slot is filled with a fresh 1x1 renderer |
| Viewport.Viewport.SyncSize | src/viewport/mod.rs:54-59 | the renderer takes the given extent; the renderer is resized and the camera's aspect set to width / height together, exactly when the extent changed; image, bind group and frame log are untouched |
| Viewport.Viewport.Tick | src/viewport/mod.rs:46-90 | with an empty slot nothing changes. Otherwise the renderer takes the clamped size; resize and the aspect update happen together, only when the size changed; exactly one frame is logged, and it is drawn after any resize: with the resized camera's matrix, the image's scale, the current bind group and a copy of the new extent; when the readback's oneshot channel delivers a value, a frame is published with the renderer's extent, stride and buffer size. The camera's aspect always equals the target's |
| Viewport.Viewport.LoadImage | src/viewport/mod.rs:114-126 | a closed channel or a decode error leaves the renderer, including `image_dims`, unchanged; a decoded image reaches `load_image` when the slot is filled; output targets never change |
| Viewport.SteadyTicks | src/viewport/mod.rs:46-90 | after initialization, two ticks at the same widget size other than 1x1 reallocate once, render twice, and leave the aspect width / height |
| Paths.Parent | src/main.rs:59 | a path has no parent exactly when it is the root; otherwise the parent plus the last component is the path |
| Paths.Join | src/main.rs:63 | joining a name to a directory gives a path whose parent is that directory and whose last component is the name |
| Paths.LastDot | src/main.rs:66 | the result is the position of a '.' with no '.' after it, and there is none exactly when the name has no '.' |
| Paths.Extension | src/main.rs:66 | an extension exists exactly when the name is not ".." and has a '.' after its first character; it is the '.'-free text after the last '.' |
| Paths.IsImageName | src/main.rs:64-69 | a name passes the `matches!` filter exactly when it is a non-empty stem, a '.', and one of the eight extensions |
| Paths.ExtensionIsDotSuffix | src/main.rs:66 | a name's extension is a given non-empty '.'-free string exactly when the name is a non-empty stem, a '.', and that string |
| Paths.ImageNameExamples | src/main.rs:64-69 | "photo.png" and "archive.tar.gif" pass the filter; "photo.PNG", ".png" and "png" do not |
| Paths.NameLe | src/main.rs:71 | std's `Ord` on file names, code point by code point with a prefix first: defined by its body; its order laws are `Paths.NameLeTotal`, `Paths.NameLeAntisymmetric` and `Paths.NameLeTransitive` |
| Paths.NameLeTotal | src/main.rs:71 | any two names are comparable |
| Paths.NameLeAntisymmetric | src/main.rs:71 | names that are each at most the other are equal |
| Paths.NameLeTransitive | src/main.rs:71 | the name order is transitive |
| Paths.PathLe | src/main.rs:71 | std's `Ord` on `PathBuf`, component by component with a prefix first: defined by its body; its order laws are `Paths.PathLeTotal`, `Paths.PathLeAntisymmetric` and `Paths.PathLeTransitive` |
| Paths.PathLeTotal | src/main.rs:71 | any two paths are comparable |
| Paths.PathLeAntisymmetric | src/main.rs:71 | paths that are each at most the other are equal |
| Paths.PathLeTransitive | src/main.rs:71 | the path order is transitive |
| Paths.Insert | src/main.rs:71 | inserting into a sorted list keeps it sorted and adds exactly that element |
| Paths.Sort | src/main.rs:71 | the result is sorted and a permutation of the input |
| Paths.SortedUnique | src/main.rs:71 | two sorted permutations of the same list are equal, so any correct sort gives `Sort`'s result |
| Paths.Position | src/main.rs:72 | the result is the first index holding the path, and is absent exactly when the path is not in the list |
| Paths.ImageFiles | src/main.rs:60-70 | a path is kept exactly when it is the directory joined with a listed name that has an image extension, and each image name gives as many entries as it has in the listing |
| AppState.RustRem | src/main.rs:47 | Rust's `%` by a positive divisor: the remainder lies strictly between -b and b, takes the dividend's sign, and is the dividend itself when that is already smaller than b in magnitude |
| AppState.RustDivRem | src/main.rs:47 | with the truncating quotient, `a == (a / b) * b + a % b` holds for every dividend, negative ones included |
| AppState.Cw | src/main.rs:47 | `(r + 90) % 360`: the result lies in (-360, 360); it is r + 90 for r in [-90, 270) and wraps to r - 270 for r in [270, 630) |
| AppState.Ccw | src/main.rs:54 | `(r + 270) % 360`: the result lies in (-360, 360); it is r + 270 for r in [-270, 90) and r - 90 for r in [90, 450) |
| AppState.QuarterTurnsClosed | src/main.rs:44-56 | `rotate_cw` and `rotate_ccw` map a quarter turn to a quarter turn |
| AppState.RotationsOnQuarterTurns | src/main.rs:44-56 | each rotation undoes the other, and `rotate_cw` goes 0 → 90 → 180 → 270 → 0 |
| AppState.CwTimesQuarter | src/main.rs:44-49 | any number of clockwise turns keeps a quarter turn a quarter turn |
| AppState.FourCw | src/main.rs:44-49 | four clockwise turns are the identity |
| AppState.CwTimesSplit | src/main.rs:44-49 | m turns followed by n turns are m + n turns |
| AppState.CwTimesPeriodic | src/main.rs:44-49 | clockwise turns repeat with period four |
| AppState.NextIndex | src/main.rs:81 | the next index is in range: the following one, or 0 after the last |
| AppState.PrevIndex | src/main.rs:89 | the previous index is in range: the preceding one, or len - 1 from 0 |
| AppState.NextPrevInverse | src/main.rs:77-91 | on an index in range, `prev` undoes `next` and `next` undoes `prev` |
| AppState.NextTimesAdvances | src/main.rs:81 | k <= len steps of `next` advance the index by k, wrapping once |
| AppState.NextCycle | src/main.rs:81 | len steps of `next` return to the start |
| AppState.AppState.constructor | src/main.rs:25-32 | `new` gives no files, index 0, scale 1 and no rotations |
| AppState.AppState.CurrentPath | src/main.rs:34-36 | the current path is absent exactly when the index is out of range, and otherwise is the file at the index |
| AppState.AppState.CurrentRotation | src/main.rs:38-42 | the stored rotation of the current path, or 0 when there is no current path or no stored rotation |
| AppState.CurrentRotationIsQuarterTurn | src/main.rs:38-42 | in a valid state the rotation shown is always in {0, 90, 180, 270} |
| AppState.AppState.RotateCw | src/main.rs:44-49 | with a current path, its entry (0 if absent) is turned clockwise and no other entry changes; without one the map is unchanged; rotations stay quarter turns |
| AppState.AppState.RotateCcw | src/main.rs:51-56 | the same, turning counter-clockwise |
| AppState.AppState.LoadDirectory | src/main.rs:58-75 | for a path with a parent, `files` becomes the sorted image files of the listing and the index the opened path's position or 0; for the root nothing changes |
| AppState.LoadedDirectory | src/main.rs:58-74 | after a load the list is sorted and holds exactly the image entries; the index is in range and names the opened file whenever that file is an image in the listing; a listing without repeated names gives a list without repeated paths |
| AppState.LoadedFilesAreImages | src/main.rs:64-70 | every loaded entry's name has one of the eight image extensions |
| AppState.AppState.Next | src/main.rs:77-83 | on an empty list it returns nothing and keeps the index; otherwise it moves to `NextIndex` and returns that file |
| AppState.AppState.Prev | src/main.rs:85-91 | on an empty list it returns nothing and keeps the index; otherwise it moves to `PrevIndex` and returns that file |

## Left out

- Floating point: camera fields, the aspect ratio, `image_dims` and the image scale are exact `real`s, so f32 rounding and IEEE infinities and NaNs are not captured.
- glam is not part of this model. `Glam.Orthographic` writes out the standard right-handed orthographic projection onto a 0..1 depth range as an assumption about `Mat4::orthographic_rh`. Matrix products are stated only through the point maps of the three constructors.
- Camera.Camera.BuildViewProjectionMatrix: requires a non-zero aspect ratio. In the source a zero aspect (a zero-width widget cannot produce one, since the tick clamps sides to 1) would yield an infinite matrix.
- Camera.Camera.SetViewportSize: takes natural numbers for the u32 sides; the f32 conversion of very large sides is not modelled.
- Renderer.IrisRenderer.LoadImage: requires an image with positive sides. In the source a zero-sized decode reaches `create_texture` with a zero extent (src/viewport/renderer.rs:205-214); wgpu rejects it with a validation error whose default handler panics, and that panic is not modelled.
- Viewport.Viewport.LoadImage: requires a decoded image to have positive sides, for the same reason.
- Renderer.IrisRenderer.Render: requires a non-zero camera aspect and positive `image_dims` (both kept by the invariants). The shader, pipeline, uniform upload, render pass, draw call and queue submit are GPU calls and become the returned `Submission` and the frame log.
- u32 overflow of `width * 4` and `padded * height` is not modelled. The device is opened with wgpu's default limits, which cap texture sides at 8192, so neither can overflow.
- Renderer.IrisRenderer.constructor, Renderer.IrisRenderer.Resize and Viewport.Viewport.Tick accept sides above the device's texture limit (8192 by default). In the source `create_targets`' `create_texture` (src/viewport/renderer.rs:260) then fails validation and wgpu's default handler panics; that panic is not modelled, and the model's targets simply take the requested extent. The constructor also accepts a zero side, which `create_texture` rejects in the same way; the program only ever constructs a 1x1 renderer (src/viewport/mod.rs:38).
- The readback (`map_async`, `poll`, `block_on`, `unmap`) is driver synchronisation. It is reduced to one boolean: whether the oneshot channel delivered the mapping callback's value, which is what `if let Ok(_)` tests. Only a dropped sender skips publishing.
- Viewport.Viewport.Tick: a mapping that fails (`map_async` sending `Err(BufferAsyncError)`) still passes `if let Ok(_)` in the source, and `get_mapped_range` then panics on the unmapped buffer. That panic is not modelled: a delivered value always publishes a frame.
- The decoding thread and the oneshot channels of `load_image` are concurrency. Only the sequential outcome (closed channel, decode error, decoded image) is modelled, as a parameter. Image decoding (`image::open`, `to_rgba8`) is external and reduced to the image's dimensions. A decode that finishes after a newer one is not guarded in the source and not in the model either.
- The `eprintln!` on a decode error is I/O and is left out.
- GPU acquisition (src/viewport/gpu.rs) and the legacy clear-only renderer (src/renderer.rs) are library calls with no bookkeeping of their own.
- `std::fs::read_dir`: the directory listing is a parameter (the entries' file names). Unreadable entries (`filter_map(|e| e.ok())`) and the panic of `unwrap()` on an unreadable directory are not modelled.
- Paths are absolute and modelled as their component names. Relative paths, redundant separators and `.` components (which `Path::components` normalises away) are not represented. Names are strings compared by code point, which matches std's byte-wise order for UTF-8 names. Names that are not valid UTF-8 are not represented. The source keeps such a name when its extension is valid UTF-8 and one of the eight (`to_str()` is applied to the extension only, src/main.rs:66), and sorts it by its bytes.
- Paths.Sort: std's stable sort is stood in for by an insertion sort. `SortedUnique` shows any sort yields the same list.
- AppState: rotations are unbounded integers with Rust's truncating `%` written out (`RustRem`). They are only ever produced from quarter turns, so i32 overflow cannot arise. The f64 zoom `scale` is stored by `new` and otherwise belongs to the GTK handlers, which are not modelled.
- The GTK user interface (`build_ui`, `main`, `load_pixbuf_rotated`, widgets, dialogs, key and scroll handlers) is UI code outside this model.
