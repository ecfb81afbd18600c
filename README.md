# Chess board viewer: verified model of its self-contained logic

The program is a small 3D chess viewer built on a game engine. It opens a
window, lays out a checkerboard and the 32 pieces of the starting position,
and lets the user orbit the camera with the mouse, zoom with the wheel, and
toggle fullscreen with F10. This project models the parts of it that are
plain logic rather than engine calls, and proves what they promise:

- `Pieces` (`src/piece.rs`): the starting-position table and `Piece::spawn`.
  `spawn` becomes a function that returns the parent translation and the list
  of child records (mesh, material, offset, scale). Engine commands are not
  issued.
- `Board` (`create_board` in `src/main.rs`): the colouring rule and the two
  nested loops that emit the 64 squares.
- `Scene` (`create_pieces` in `src/main.rs`): the colour-to-material and
  type-to-meshes choices, and the loop that spawns one parent per table entry.
- `Controls` (`src/main.rs`): the `MyGame` resource as a class, the mouse
  system that updates it from button, motion and wheel events, and the
  keyboard intent that `wasd` builds.
- `WindowSync` (`src/window/mod.rs`): the window resources as a class that
  holds the desired descriptor, the stored previous copy and a log of the
  window setters issued, with `toggle_fullscreen` and `update_window` as
  methods. The nine `if`s of `update_window` are modelled as a list of nine
  checks (a guard and the setter it fires). The setters fired are those of
  the checks whose guard holds, in source order.
- `Common`: the vector type, an option type, the keyboard keys and the two 32-bit float constants
  the code uses (epsilon = 2^-23, and the float nearest to pi).

Single-precision numbers are modelled as exact reals. Piece coordinates are
whole numbers in the source, so they are modelled as integers.

The other eight checks of `update_window` fire when a field differs from the
stored copy. The resolution check instead calls `compare_f32`, which is true
when two values are within epsilon of each other. So the resolution setter
fires when the width or the height is unchanged, not when it changes. A resize
of both dimensions is not applied by the update that sees it. That update
still stores the resized descriptor as the previous copy, so the next
change-detected update that keeps the new size (a title change, an F10 toggle)
applies it. The model follows the code as written:
`ResizeOfBothDimensionsNotApplied` and `ResizeAppliedOneUpdateLate` state
both halves.

## Model

| member | source | states |
|---|---|---|
| `Pieces.TableLayout` | src/piece.rs:25-58 | The table has 32 entries laid out as White's back rank, White's pawns, Black's back rank, Black's pawns, each on files 0 to 7 in the back-rank order R N B Q K B N R |
| `Pieces.SquaresOnBoardAndDistinct` | src/piece.rs:26-57 | Every entry's x and y lie in [0, 7], and no two entries share a square |
| `Pieces.SidesOccupyOwnRanks` | src/piece.rs:26-57 | All White pieces are on ranks 0 and 1, all Black pieces on ranks 6 and 7 |
| `Pieces.PieceCounts` | src/piece.rs:26-57 | Each colour has exactly 1 king, 1 queen, 2 rooks, 2 knights, 2 bishops and 8 pawns |
| `Pieces.PawnRanksFull` | src/piece.rs:34-57 | White pawns fill every file of rank 1 and Black pawns every file of rank 6 |
| `Pieces.BackRanksMirror` | src/piece.rs:26-49 | On every file, the piece on rank 7 has the same type as the piece on rank 0 |
| `Pieces.Spawn` | src/piece.rs:61-215 | The parent sits at (x, 0, y). Kings and knights get 2 children and other types 1; the mesh slice must hold that many. Child i uses meshes[i] and the given material, the fixed offset of its type, and scale 0.2 on every axis |
| `Board.MaterialAt` | src/main.rs:205-209 | Square (i, j) gets the white material exactly when i + j is odd |
| `Board.CreateBoard` | src/main.rs:189-215 | The nested loops emit exactly the 64 squares of the board, row by row: index 8i + j holds square (i, j) with its material and translation (i, 0, j) |
| `Board.BoardCoversGrid` | src/main.rs:200-212 | Every grid position (i, j) in [0,8)x[0,8) has a square at index 8i + j, translated to (i, 0, j) |
| `Board.BoardTranslationsDistinct` | src/main.rs:200-212 | No two of the 64 squares share a translation, so each position is visited exactly once |
| `Board.NeighboursDiffer` | src/main.rs:205-209 | Squares adjacent horizontally or vertically never get the same material |
| `Board.PairDiffers` | src/main.rs:200-209 | Squares 2m and 2m + 1 are neighbours in one row and get different materials |
| `Board.PrefixBalanced` | src/main.rs:199-214 | Every even-length prefix of the emitted squares is half white and half black |
| `Board.BoardBalanced` | src/main.rs:199-214 | The board has 32 squares of each material |
| `Scene.MaterialFor` | src/main.rs:241-244 | As written, Black pieces get the white material and White pieces the black one |
| `Scene.MeshesFor` | src/main.rs:245-264 | A type gets as many meshes as `spawn` needs (2 for King and Knight, 1 otherwise). These are exactly that type's primitives, in asset-file order (king then king-cross, knight 1 then knight 2) |
| `Scene.CreatePieces` | src/main.rs:240-266 | One parent per table entry, in table order; entry k is spawned with its type's meshes and its colour's material |
| `Scene.SceneWellFormed` | src/main.rs:240-266 | The spawned parents stand on distinct board squares at height 0. Every child uses a mesh of its own piece's type and its colour's material |
| `Controls.Clamp` | src/main.rs:287-288 | The clamped value lies within the bounds and is unchanged when already inside them |
| `Controls.RemEuclid` | src/main.rs:289-290 | The Euclidean remainder lies in [0, m) and differs from the input by a whole multiple of m |
| `Controls.MyGame.constructor` | src/main.rs:45-51 | The derived default resource: button released, zero camera and offset, no saved camera |
| `Controls.MyGame.Setup` | src/main.rs:114-117 | Setup sets the camera to (6.00, 0.94, 3.51), which lies within the camera's ranges, and clears the button, the offset and the saved camera |
| `Controls.MyGame.MouseEventsSystem` | src/main.rs:270-297 | The loops process button events, then motion events (with the updated flag), then wheel events. The new flag and camera are the step-by-step results of those events, and nothing else changes |
| `Controls.ApplyButton` | src/main.rs:277-282 | A right-button event sets the flag exactly when it is a press; any other button's event leaves the flag as it was |
| `Controls.Orbit` | src/main.rs:286-291 | One held motion event keeps the radius. The polar angle is moved by -dy/500 and held in [eps, pi - eps]; it is moved exactly when that stays in range. The azimuth is moved by dx/500 and brought into [0, 2 pi) by a whole number of turns |
| `Controls.Zoom` | src/main.rs:295 | One wheel event changes only the radius. The radius is moved by -y and held in [1, 20]; it is moved exactly when that stays in range |
| `Controls.OtherButtonsIgnored` | src/main.rs:276-283 | Events from buttons other than the right one leave the flag unchanged |
| `Controls.LastRightEventWins` | src/main.rs:276-283 | After a right-button event followed only by other buttons' events, the flag is true exactly when that event was a press |
| `Controls.MotionIgnoredWhenReleased` | src/main.rs:285-292 | Motion does not move the camera while the right button is not held |
| `Controls.MotionKeepsAnglesInRange` | src/main.rs:285-292 | Motion never changes the radius. After any motion with the button held, the polar angle is in [eps, pi - eps] and the azimuth in [0, 2 pi) |
| `Controls.WheelClampsRadius` | src/main.rs:294-296 | Wheel events change only the radius, and after at least one of them the radius is in [1, 20] |
| `Controls.MotionPreservesRange` | src/main.rs:285-292 | Motion events keep a camera within its ranges |
| `Controls.MouseSystemPreservesRange` | src/main.rs:276-297 | A whole mouse-system run keeps a camera within its ranges |
| `Controls.Intent` | src/main.rs:306-324 | Each intent component is 1, -1 or 0. It is 1 when only the positive key of its pair (W, Space, A) is held, -1 when only the negative key (S, LControl, D) is held, and 0 when both or neither are held |
| `WindowSync.CompareF32` | src/window/mod.rs:15-18 | Two values compare equal exactly when each lies strictly within epsilon of the other, and equal values always compare equal |
| `WindowSync.ModeNeedsSetting` | src/window/mod.rs:53-59 | The mode is re-applied except when both modes are Windowed or both are BorderlessFullscreen |
| `WindowSync.Checks` | src/window/mod.rs:29-59 | An update makes nine checks in source order, each naming a different setter. When nothing differs, no check except resolution and mode fires |
| `WindowSync.Setters` | src/window/mod.rs:29-59 | One update fires at most nine setters, and never the same setter twice |
| `WindowSync.FiredDistinct` | src/window/mod.rs:29-59 | When every check names a different setter, no setter is fired twice |
| `WindowSync.Toggled` | src/window/mod.rs:68-72 | F10 flips Windowed and BorderlessFullscreen into each other; other modes are outside its domain |
| `WindowSync.WindowState.constructor` | src/window/mod.rs:12-13 | The stored previous descriptor starts as the engine's default, and no setter has been issued |
| `WindowSync.WindowState.ToggleFullscreen` | src/window/mod.rs:66-74 | When F10 is not among the keys pressed this frame, nothing changes. When it is, only the desired mode flips, and the descriptor is reported as written. The precondition excludes the modes the source marks unreachable |
| `WindowSync.WindowState.UpdateWindow` | src/window/mod.rs:20-63 | Without a change nothing is issued and `prev` is kept. With a change the fired setters are appended in order and `prev` becomes the current descriptor |
| `WindowSync.FiredExactly` | src/window/mod.rs:29-59 | A setter is issued exactly when some firing check names it |
| `WindowSync.InSetters` | src/window/mod.rs:29-59 | The same fact for the nine checks of one update |
| `WindowSync.ScaleFactorOverrideSetterFiresOnDifference` | src/window/mod.rs:32-34 | The scale-factor setter fires exactly when the override differs, and carries the current value |
| `WindowSync.TitleSetterFiresOnDifference` | src/window/mod.rs:35-37 | The title setter fires exactly when the title differs, and carries the current title |
| `WindowSync.VsyncSetterFiresOnDifference` | src/window/mod.rs:38-40 | The vsync setter fires exactly when vsync differs, and carries the current value |
| `WindowSync.ResizableSetterFiresOnDifference` | src/window/mod.rs:41-43 | The resizable setter fires exactly when resizable differs, and carries the current value |
| `WindowSync.DecorationsSetterFiresOnDifference` | src/window/mod.rs:44-46 | The decorations setter fires exactly when decorations differ, and carries the current value |
| `WindowSync.CursorVisibleSetterFiresOnDifference` | src/window/mod.rs:47-49 | The cursor-visibility setter fires exactly when visibility differs, and carries the current value |
| `WindowSync.CursorLockedSetterFiresOnDifference` | src/window/mod.rs:50-52 | The cursor-lock setter fires exactly when the lock differs, and carries the current value |
| `WindowSync.ResolutionFiresOnEquality` | src/window/mod.rs:16-31 | The resolution setter always carries the current width and height. It fires exactly when the width or the height is within epsilon of its previous value |
| `WindowSync.ResizeOfBothDimensionsNotApplied` | src/window/mod.rs:29-31 | When both width and height change by at least epsilon, the update that sees the change fires no resolution setter |
| `WindowSync.ResizeAppliedOneUpdateLate` | src/window/mod.rs:29-61 | After an update that skipped a resize of both dimensions, the next update that keeps the new size fires the resolution setter with it, because `prev` was still replaced |
| `WindowSync.ModeSetterFires` | src/window/mod.rs:53-59 | The mode setter carries the current mode. It is skipped only when both modes are Windowed or both are BorderlessFullscreen, so equal Fullscreen or SizedFullscreen modes still trigger it |
| `WindowSync.UnchangedDescriptorSetters` | src/window/mod.rs:25-61 | Re-applying an unchanged descriptor still fires the resolution setter. It also fires the mode setter exactly for the Fullscreen and SizedFullscreen modes, and nothing else |
| `WindowSync.ToggleReachesWindow` | src/window/mod.rs:53-72 | After an F10 toggle from a synchronised state, the next update fires the mode setter with the new mode, and otherwise only the resolution setter |
| `WindowSync.ToggleTwiceRestores` | src/window/mod.rs:68-72 | Toggling twice restores the mode |

## Left out

- `spherical_to_cartesian` and `camera_writer` (src/main.rs:19-25, 339-352): float trigonometry and the engine's `looking_at` transform.
- `wasd` after the intent is built (src/main.rs:326-336): the rotation by the camera's forward, up and left vectors, the scaling by frame time and `SPEED`, and the update of `pos`, which all go through engine transforms and float time. `Controls.Intent` stops at the intent vector.
- `main`, `exit` and the plugin and diagnostics registration (src/main.rs:62-97, 183-187), and `init` (src/window/mod.rs:3-7): app wiring and process exit. The descriptor `main` inserts is the `desired` parameter of `WindowSync.WindowState.constructor`.
- The rest of `setup` (src/main.rs:99-180): the textured quad, the camera and the light are engine spawns with no logic. Only the initialisation of `MyGame` is modelled.
- Asset loading, material creation and entity spawning: `create_pieces`, `create_board` and `Piece::spawn` are modelled as the values they select (mesh names, material names, translations, scales), not as engine commands. The shared 1x1 plane mesh of the board squares is not recorded.
- The colours the square and piece materials are created with (src/main.rs:196-197, 237-238): materials are recorded only as which of the two each entity uses.
- src/entity/block.rs: it only loads textures and creates an unused cube mesh. src/entity/block.rs is not part of this model.
- The platform effect of the window setters: they are only entries in the command log.
- `windows.get_primary_mut().unwrap()` (src/window/mod.rs:26): the model assumes a primary window exists. The panic when none exists is not modelled.
- The engine's change detection: `is_changed()` is a parameter of `UpdateWindow`. `ToggleFullscreen` reports whether it wrote the descriptor, but nothing connects that report to the next update's parameter.
- The engine's default window descriptor, which `PrevWindow` starts from: its values are not visible, so the constructor takes it as a parameter.
- Window-descriptor fields that `update_window` never reads (position, resize constraints and others) are not modelled. `prev == curr` is stated over the modelled fields.
- Floating point: rounding, NaN and infinities are not modelled. `Controls.RemEuclid` is exact, so it never returns m the way a rounded float remainder can. `WindowSync.CompareF32` compares exact differences.
- Event-reader cursors and frame scheduling: each system receives the batch of events for one frame as sequences, and the systems are applied one at a time.
