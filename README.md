# Camera model

A Dafny model of the `Camera` class of a small interactive raymarching
renderer (`src/camera/camera.cpp`). The camera holds a position, a look
vector and an up vector, a viewport (width and height in pixels) and a
frustum (near and far planes, height angle). From these it derives the
extents of the view plane at the far distance and a cached view matrix with
its inverse. Keyboard input becomes displacement vectors; mouse input becomes
a yaw about the world y axis or a pitch about `look x up`. Either motion
recomputes the view matrix.

The project has four modules:

- `LinearAlgebra` (`linalg.dfy`) defines 3- and 4-vectors and 3x3 and 4x4
  matrices over `real`. Matrices are stored by columns, as glm stores them,
  and glm's constructors take their arguments column by column. The module
  also holds the linearity facts the proofs need.
- `Numerics` (`numerics.dfy`) holds the glm routines the model does not
  define: `sin`, `cos`, `tan`, `normalize` and `inverse`. They are a record
  of function values, `MathLibrary`, that the camera receives when it is
  built. The module also defines the two facts about them that some lemmas
  assume (`sin 0 = 0, cos 0 = 1` and `sin^2 + cos^2 = 1` at one angle),
  and it defines `radians`.
- `CameraMath` (`camera_math.dfy`) defines the matrices the camera builds,
  each written as a pure function:
  - the view matrix of `setViewMatrix`;
  - the yaw matrix of `rotateX`;
  - the skew and Rodrigues matrices of `rotateY`.

  It also holds the lemmas that state what each matrix does. `Yaw` and
  `Pitch` give the new look after each mouse rotation.
- `CameraCore` (`camera.dfy`) is the `Camera` class:
  - its fields are the C++ members;
  - the state-changing operations are methods with `modifies` clauses;
  - the queries are functions with `reads` clauses.

  Two predicates describe the state:
  - `FrustumIsCurrent` says the aspect ratio and view-plane extents agree
    with the viewport and the frustum;
  - `ViewIsCurrent` says the cached matrices agree with `pos`, `look` and
    `up`.

  Every state-changing method keeps both.

The pitch axis `look x up` is used without normalising it, as the code does.
Rodrigues' formula is a rotation only for a unit axis. So when look is not
perpendicular to up, or either vector is not of unit length, the pitch scales
look as well as turning it. For example, with look = (0, 0.6, -0.8),
up = (0, 1, 0), sine 0.6 and cosine 0.8, the axis has length 0.8. The squared
length of look then drops from 1 to 0.990784. The model keeps the code's
behaviour. The facts proved about the pitch hold for any axis length:
- it keeps look perpendicular to the axis;
- it is the identity at angle zero;
- it fixes the axis.

## Model

| member | source | states |
|---|---|---|
| `Numerics.Radians` | src/camera/camera.cpp:184 | The angle in radians is zero exactly when the angle in degrees is zero, and positive exactly when it is positive. |
| `CameraMath.MouseAngle` | src/camera/camera.cpp:183-184 | The mouse angle `0.3 * 360 * delta / extent` in radians is zero exactly when the mouse did not move, and positive exactly when it moved in the positive direction. |
| `CameraMath.CameraBasis` | src/camera/camera.cpp:50-52 | w is minus the normalised look. u = v x w is perpendicular to both v and w, whatever `normalize` returns. |
| `CameraMath.ViewFromBasisColumns` | src/camera/camera.cpp:43-62 | Rotation times translation, written out: the rotation block has rows u, v, w, and the last column is (-u.pos, -v.pos, -w.pos, 1). |
| `CameraMath.ViewOfPoint` | src/camera/camera.cpp:43-62 | A point q goes to its coordinates relative to the camera along u, v and w, with homogeneous coordinate 1. |
| `CameraMath.ViewSendsPositionToOrigin` | src/camera/camera.cpp:43-62 | The view matrix sends (pos, 1) to (0, 0, 0, 1), and its bottom row is (0, 0, 0, 1), whatever the basis. |
| `CameraMath.ViewOfDirection` | src/camera/camera.cpp:43-62 | A direction d goes to (u.d, v.d, w.d, 0): translation does not act on directions. |
| `CameraMath.YawKeepsHeight` | src/camera/camera.cpp:185-187 | The column-major yaw matrix sends x to (c x.x + s x.z, x.y, c x.z - s x.x), so it keeps the y coordinate. |
| `CameraMath.YawAtZero` | src/camera/camera.cpp:185-187 | With s = 0 and c = 1 the yaw matrix is the identity. |
| `CameraMath.YawKeepsLength` | src/camera/camera.cpp:185-187 | When s^2 + c^2 = 1, the yaw keeps the squared length of every vector. |
| `CameraMath.YawTurnsHorizontally` | src/camera/camera.cpp:182-189 | The new look of rotateX has the old look's height, and its x and z are the old ones turned by theta. |
| `CameraMath.YawByZero` | src/camera/camera.cpp:182-189 | With sin 0 = 0 and cos 0 = 1, rotateX by angle zero leaves look unchanged. |
| `CameraMath.YawKeepsLookLength` | src/camera/camera.cpp:182-189 | Where sin^2 + cos^2 = 1, rotateX keeps the length of look. |
| `CameraMath.SkewMatrixFacts` | src/camera/camera.cpp:203-205 | K as glm lays it out maps x to x cross axis. K is skew-symmetric (its transpose is -K) and it sends the axis to zero. |
| `CameraMath.SkewSquaredFixesNothing` | src/camera/camera.cpp:203-207 | K K also sends the axis to zero. |
| `CameraMath.SkewSquaredPerpendicular` | src/camera/camera.cpp:203-207 | K K sends every vector to one perpendicular to the axis. |
| `CameraMath.RodriguesApply` | src/camera/camera.cpp:206-207 | (I + s K + (1 - c) K K) x is x + s (K x) + (1 - c) (K K x). |
| `CameraMath.RodriguesFixesAxis` | src/camera/camera.cpp:199-207 | The Rodrigues matrix maps its axis to itself, for every angle. |
| `CameraMath.RodriguesKeepsAxisComponent` | src/camera/camera.cpp:199-207 | The Rodrigues matrix keeps every vector's dot product with the axis. |
| `CameraMath.RodriguesAtZero` | src/camera/camera.cpp:206-207 | With s = 0 and c = 1 the Rodrigues matrix is the identity. |
| `CameraMath.PitchStaysPerpendicular` | src/camera/camera.cpp:196-209 | The new look of rotateY is perpendicular to the axis look x up, so look turns within the plane of look and up. |
| `CameraMath.PitchAtZero` | src/camera/camera.cpp:196-209 | With sin 0 = 0 and cos 0 = 1, rotateY by angle zero leaves look unchanged. |
| `LinearAlgebra.CrossOrthogonal` | src/camera/camera.cpp:52 | A cross product is perpendicular to both of its factors. |
| `LinearAlgebra.DirectionIgnoresTranslation` | src/camera/camera.cpp:112 | A 4x4 matrix applied to (d, 0) gives its upper-left block applied to d. The last column plays no part. |
| `CameraCore.PixelCentre` | src/camera/camera.cpp:95-96 | For a pixel inside the axis, its centre (k + 0.5) / n - 0.5 lies strictly between -0.5 and 0.5. |
| `CameraCore.PixelCentreIncreasing` | src/camera/camera.cpp:95-96 | A larger pixel index has a strictly larger centre. |
| `CameraCore.PixelCentreMirror` | src/camera/camera.cpp:95-96 | Pixel n - 1 - k has the negated centre of pixel k. |
| `CameraCore.MiddlePixelCentre` | src/camera/camera.cpp:95-96 | On an axis of odd length the middle pixel is centred at 0. |
| `CameraCore.Camera.SetFrustum` | src/camera/camera.cpp:12-23 | Copies the viewport and the frustum in. The aspect ratio becomes width / height, the view-plane height 2 far tan(heightAngle / 2), and its width aspect times height. |
| `CameraCore.Camera.InitializeCamera` | src/camera/camera.cpp:8-32 | Afterwards both invariants hold. The viewport, near, far, height angle, look and up are those of the settings and the scene. `getCameraPosition` returns (cd.pos, 1). |
| `CameraCore.Camera.constructor` | src/camera/camera.cpp:8-32 | A camera built from a scene and the settings is initialised as initializeCamera leaves it. |
| `CameraCore.Camera.SetViewMatrix` | src/camera/camera.cpp:41-64 | Afterwards the view matrix is rotation(u, v, w) times translation(-pos) and the inverse view is the library's inverse of it. Only these two fields change. |
| `CameraCore.Camera.GetViewMatrix` | src/camera/camera.cpp:70 | The view matrix returned sends the camera position to the origin, and its bottom row is (0, 0, 0, 1). |
| `CameraCore.Camera.GetCameraPosition` | src/camera/camera.cpp:76 | The position has homogeneous coordinate 1, and it is the point the view matrix sends to the origin. |
| `CameraCore.Camera.NormalizePixel` | src/camera/camera.cpp:94-98 | For a column inside the viewport, x lies strictly in (-0.5, 0.5). The same holds for y and a row inside the viewport. |
| `CameraCore.Camera.RowsDescend` | src/camera/camera.cpp:96 | y falls strictly as the row grows: row 0 is the top of the image. |
| `CameraCore.Camera.ColumnsAscend` | src/camera/camera.cpp:95 | x grows strictly with the column. |
| `CameraCore.Camera.PixelMirror` | src/camera/camera.cpp:94-98 | The pixel mirrored through the image centre has both coordinates negated. |
| `CameraCore.Camera.CameraSpaceRay` | src/camera/camera.cpp:107-110 | The camera-space vector (U x, V y, -far) has z = -far. For a pixel inside the viewport, its x and y lie within half the view-plane width and height. |
| `CameraCore.Camera.MiddleRayStraightAhead` | src/camera/camera.cpp:107-110 | On a viewport of odd width and height, the middle pixel's ray is (0, 0, -far). |
| `CameraCore.Camera.GetRayDir` | src/camera/camera.cpp:106-113 | The ray direction is the inverse view's upper-left block applied to the camera-space vector. Its translation column plays no part. |
| `CameraCore.Camera.ApplyTranslation` | src/camera/camera.cpp:121-126 | The position becomes old + disp. Look, up, viewport and frustum are unchanged. Both invariants hold, and the view sends the new position to the origin. |
| `CameraCore.Camera.OnWPressed` | src/camera/camera.cpp:132 | The W displacement is parallel to look (zero cross product), and its dot product with look is 0.75 times look's squared length. |
| `CameraCore.Camera.OnSPressed` | src/camera/camera.cpp:138 | The S displacement is the negation of W's: the two sum to zero. |
| `CameraCore.Camera.OnDPressed` | src/camera/camera.cpp:150 | The D strafe is perpendicular to both look and up. |
| `CameraCore.Camera.OnAPressed` | src/camera/camera.cpp:144 | The A displacement is the negation of D's: the two sum to zero. |
| `CameraCore.Camera.OnSpacePressed` | src/camera/camera.cpp:156 | The Space displacement is the unit vector up the world y axis. |
| `CameraCore.Camera.OnControlPressed` | src/camera/camera.cpp:162 | The Control displacement is the negation of Space's. |
| `CameraCore.Camera.ApplyRotation` | src/camera/camera.cpp:169-174 | Look becomes m times the old look. Position and up are unchanged, and both invariants hold. |
| `CameraCore.Camera.RotateX` | src/camera/camera.cpp:182-189 | Look becomes `Yaw` of the old look by the mouse angle of deltaX over the width. Position and up are unchanged, and both invariants hold. |
| `CameraCore.Camera.RotateY` | src/camera/camera.cpp:196-209 | Look becomes `Pitch` of the old look about old look x up, by the mouse angle of deltaY over the height. Position and up are unchanged, and both invariants hold. |

## Left out

- Floating point. Every `float` is a `real`, so there is no rounding. The
  `int` arithmetic in `normalizePixel` (`m_height - 1 - i`) is unbounded and
  has no 32-bit overflow.
- Trigonometry, `glm::normalize` and `glm::inverse` are parameters (the
  `MathLibrary` record), not definitions. Nothing is proved about the inverse
  view matrix beyond its being the library's inverse of the view matrix.
  Likewise nothing is proved about the orthonormality of u, v and w, which
  needs a square root. What `getRayDir` returns in world space is left
  abstract for the same reason.
- `CameraCore.Camera.InitializeCamera`: requires a positive screen width and
  height. With a zero height the code's float division yields an infinity or
  NaN, which `real` cannot represent.
- `CameraCore.Camera.NormalizePixel`: requires a positive width and height,
  for the same reason.
- `CameraMath.MouseAngle`: requires a positive viewport extent, for the same
  reason.
- The camera starts out uninitialised in C++ and is initialised by a later
  call. The model's constructor builds and initialises it in one step.
  `InitializeCamera` can still be called again on a built camera.
- The header declaring `SceneCameraData` is not part of this model. Its
  position, look and up are taken as 3-vectors, and its height angle as a
  real, which is how the camera uses them.
- `GetNearPlane` and `GetFarPlane` return the fields. `InitializeCamera`
  states what they return after initialisation.
- The Qt widget shell (`src/realtime.h`) is left out: key and mouse events,
  timers and OpenGL state. So is the process-wide settings object
  (`src/settings.h`), except for the four fields the camera reads. The
  `iostream` include in `camera.cpp` is unused.
- `CameraCore.Camera.RotateY`: the pitch axis is not normalised, as in the
  code, so the pitch is not a rotation and need not keep look's length (see
  above). The model reproduces that behaviour instead of correcting it.
