/** The Camera class of src/camera/camera.cpp: a mutable record of position,
    look and up vectors, viewport and frustum, and the cached view matrix and
    its inverse, which every method that moves the camera recomputes. */
module CameraCore {
  import opened LinearAlgebra
  import opened Numerics
  import opened CameraMath

  /** The four fields of the application settings the camera reads. */
  datatype Settings = Settings(screenWidth: int, screenHeight: int, nearPlane: real, farPlane: real)

  /** The camera as the scene file describes it. */
  datatype SceneCameraData = SceneCameraData(pos: Vec3, look: Vec3, up: Vec3, heightAngle: real)

  /** The scale of every W/A/S/D displacement. */
  const KeySensitivity: real := 0.75

  function Abs(r: real): real {
    if r < 0.0 then -r else r
  }

  /** The image-plane coordinate of the centre of pixel k of n along one
      axis: (k + 0.5) / n - 0.5. Inside the axis it lies strictly between
      -0.5 and 0.5. */
  function PixelCentre(k: int, n: int): (c: real)
    requires n > 0
    ensures 0 <= k < n ==> -0.5 < c < 0.5
  {
    var num, den := k as real + 0.5, n as real;
    var q := num / den;
    assert 0 <= k < n ==> 0.0 < q < 1.0 by {
      if 0 <= k < n {
        assert q * den == num;
        if q >= 1.0 { assert false; }
        if q <= 0.0 { assert false; }
      }
    }
    q - 0.5
  }

  /** Pixel centres grow strictly with the pixel index. */
  lemma PixelCentreIncreasing(k: int, k2: int, n: int)
    requires n > 0 && k < k2
    ensures PixelCentre(k, n) < PixelCentre(k2, n)
  {
    var den := n as real;
    var a, b := (k as real + 0.5) / den, (k2 as real + 0.5) / den;
    assert a * den == k as real + 0.5 && b * den == k2 as real + 0.5;
    var diff := b - a;
    assert diff * den == (k2 - k) as real;
    if diff <= 0.0 { assert false; }
  }

  /** Mirroring a pixel through the middle of its axis negates its centre. */
  lemma PixelCentreMirror(k: int, n: int)
    requires n > 0
    ensures PixelCentre(n - 1 - k, n) == -PixelCentre(k, n)
  {
  }

  /** On an axis of odd length the middle pixel is centred at 0. */
  lemma MiddlePixelCentre(n: int)
    requires n > 0 && n % 2 == 1
    ensures PixelCentre(n / 2, n) == 0.0
  {
  }

  /** A coordinate strictly inside (-0.5, 0.5) scales an extent a to at most half of it. */
  lemma ScaledHalfBound(a: real, x: real)
    requires -0.5 < x < 0.5
    ensures 2.0 * Abs(a * x) <= Abs(a)
  {
    var p := a * x;
    if a >= 0.0 {
      if x >= 0.0 { assert 0.0 <= p <= a * 0.5; } else { assert a * -0.5 <= p <= 0.0; }
    } else {
      if x >= 0.0 { assert a * 0.5 <= p <= 0.0; assert Abs(p) == -p; } else { assert 0.0 <= p <= a * -0.5; }
    }
  }

  class Camera {
    /** The glm routines this camera calls. */
    const lib: MathLibrary

    var width: int
    var height: int
    var aspectRatio: real
    var near: real
    var far: real
    var heightAngle: real
    /** Height and width of the view plane placed at the far distance. */
    var viewAngleHeight: real
    var viewAngleWidth: real
    var look: Vec3
    var pos: Vec3
    var up: Vec3
    var view: Mat4
    var invView: Mat4

    /** The cached matrices agree with the current position, look and up. */
    ghost predicate ViewIsCurrent()
      reads this`view, this`invView, this`pos, this`look, this`up
    {
      view == ViewMatrix(lib, pos, look, up) && invView == lib.inverse(view)
    }

    /** What initializeCamera establishes and every later method keeps. */
    ghost predicate Valid()
      reads this
    {
      FrustumIsCurrent() && ViewIsCurrent()
    }

    /** The viewport is non-empty, and the aspect ratio and the extents of
        the view plane at the far distance agree with it and the frustum. */
    ghost predicate FrustumIsCurrent()
      reads this`width, this`height, this`aspectRatio, this`far, this`heightAngle,
            this`viewAngleHeight, this`viewAngleWidth
    {
      width > 0 && height > 0 &&
      aspectRatio == width as real / height as real &&
      viewAngleHeight == 2.0 * far * lib.tan(heightAngle / 2.0) &&
      viewAngleWidth == aspectRatio * viewAngleHeight
    }

    /** The first half of initializeCamera: viewport, frustum and the
        view-plane extents derived from them. */
    method SetFrustum(cd: SceneCameraData, s: Settings)
      requires s.screenWidth > 0 && s.screenHeight > 0
      modifies this`width, this`height, this`aspectRatio, this`near, this`far, this`heightAngle,
               this`viewAngleHeight, this`viewAngleWidth
      ensures FrustumIsCurrent()
      ensures width == s.screenWidth && height == s.screenHeight
      ensures near == s.nearPlane && far == s.farPlane && heightAngle == cd.heightAngle
    {
      width := s.screenWidth;
      height := s.screenHeight;
      aspectRatio := width as real / height as real;
      near := s.nearPlane;
      far := s.farPlane;
      heightAngle := cd.heightAngle;
      viewAngleHeight := 2.0 * far * lib.tan(heightAngle / 2.0);
      viewAngleWidth := aspectRatio * viewAngleHeight;
    }

    /** A camera built and initialised in one step from the scene and the settings. */
    constructor (lib: MathLibrary, cd: SceneCameraData, s: Settings)
      requires s.screenWidth > 0 && s.screenHeight > 0
      ensures Valid() && this.lib == lib
      ensures pos == cd.pos && look == cd.look && up == cd.up
      ensures width == s.screenWidth && height == s.screenHeight
      ensures near == s.nearPlane && far == s.farPlane && heightAngle == cd.heightAngle
    {
      this.lib := lib;
      new;
      InitializeCamera(cd, s);
    }

    /** initializeCamera: copies the viewport, the frustum and the camera's
        placement in, derives the view-plane extents at the far distance and
        computes the view matrix. */
    method InitializeCamera(cd: SceneCameraData, s: Settings)
      requires s.screenWidth > 0 && s.screenHeight > 0
      modifies this
      ensures Valid()
      ensures width == s.screenWidth && height == s.screenHeight
      ensures GetNearPlane() == s.nearPlane && GetFarPlane() == s.farPlane
      ensures heightAngle == cd.heightAngle
      ensures look == cd.look && up == cd.up
      ensures GetCameraPosition() == Extend(cd.pos, 1.0)
    {
      SetFrustum(cd, s);
      look := cd.look;
      pos := cd.pos;
      up := cd.up;
      SetViewMatrix();
    }

    /** setViewMatrix: translate by -pos, then rotate into the (u, v, w)
        frame; the inverse comes from the library. Only the two matrices change. */
    method SetViewMatrix()
      modifies this`view, this`invView
      ensures ViewIsCurrent()
    {
      var translationMat := TranslationMatrix(pos);
      var w := Neg(lib.normalize(look));
      var v := lib.normalize(Sub(up, Scale(Dot(up, w), w)));
      var u := Cross(v, w);
      var rotationMat := RotationMatrix(Basis(u, v, w));
      view := MulMM4(rotationMat, translationMat);
      invView := lib.inverse(view);
    }

    /** getViewMatrix: the view matrix, which sends the camera's position to
        the origin and, its bottom row being (0, 0, 0, 1), keeps the
        homogeneous coordinate of every point and direction. */
    function GetViewMatrix(): (m: Mat4)
      reads this
      requires ViewIsCurrent()
      ensures MulMV4(m, Extend(pos, 1.0)) == Origin
      ensures BottomRow(m) == Vec4(0.0, 0.0, 0.0, 1.0)
    {
      ViewSendsPositionToOrigin(pos, CameraBasis(lib, look, up));
      view
    }

    /** getCameraPosition: the position as a homogeneous point, which is the
        point the view matrix sends to the origin. */
    function GetCameraPosition(): (p: Vec4)
      reads this
      requires ViewIsCurrent()
      ensures p.w == 1.0 && MulMV4(view, p) == Origin
    {
      ViewSendsPositionToOrigin(pos, CameraBasis(lib, look, up));
      Extend(pos, 1.0)
    }

    function GetNearPlane(): real
      reads this
    {
      near
    }

    function GetFarPlane(): real
      reads this
    {
      far
    }

    /** normalizePixel: the centre of pixel (row i, column j) in image-plane
        coordinates. Inside the viewport both lie strictly between -0.5 and
        0.5; x grows with the column and y falls as the row grows, so row 0
        is the top of the image. */
    function NormalizePixel(i: int, j: int): (r: (real, real))
      reads this
      requires width > 0 && height > 0
      ensures 0 <= j < width ==> -0.5 < r.0 < 0.5
      ensures 0 <= i < height ==> -0.5 < r.1 < 0.5
    {
      (PixelCentre(j, width), PixelCentre(height - 1 - i, height))
    }

    /** Further down the image (a larger row i) y is strictly smaller: row 0
        is the top row. */
    lemma RowsDescend(i: int, i2: int, j: int)
      requires width > 0 && height > 0 && i < i2
      ensures NormalizePixel(i2, j).1 < NormalizePixel(i, j).1
    {
      PixelCentreIncreasing(height - 1 - i2, height - 1 - i, height);
    }

    /** Further right (a larger column j) x is strictly larger. */
    lemma ColumnsAscend(i: int, j: int, j2: int)
      requires width > 0 && height > 0 && j < j2
      ensures NormalizePixel(i, j).0 < NormalizePixel(i, j2).0
    {
      PixelCentreIncreasing(j, j2, width);
    }

    /** The pixel mirrored through the image centre has both coordinates
        negated. */
    lemma PixelMirror(i: int, j: int)
      requires width > 0 && height > 0
      ensures NormalizePixel(height - 1 - i, width - 1 - j) ==
              (-NormalizePixel(i, j).0, -NormalizePixel(i, j).1)
    {
      PixelCentreMirror(j, width);
      PixelCentreMirror(height - 1 - i, height);
    }

    /** The camera-space vector (U x, V y, -far) that getRayDir builds: a
        point of the view plane at the far distance, inside its rectangle. */
    function CameraSpaceRay(i: int, j: int): (d: Vec3)
      reads this
      requires width > 0 && height > 0
      ensures d.z == -far
      ensures 0 <= j < width ==> 2.0 * Abs(d.x) <= Abs(viewAngleWidth)
      ensures 0 <= i < height ==> 2.0 * Abs(d.y) <= Abs(viewAngleHeight)
    {
      var (x, y) := NormalizePixel(i, j);
      var d := Vec3(viewAngleWidth * x, viewAngleHeight * y, -far);
      assert 0 <= j < width ==> 2.0 * Abs(d.x) <= Abs(viewAngleWidth) by {
        if 0 <= j < width { ScaledHalfBound(viewAngleWidth, x); }
      }
      assert 0 <= i < height ==> 2.0 * Abs(d.y) <= Abs(viewAngleHeight) by {
        if 0 <= i < height { ScaledHalfBound(viewAngleHeight, y); }
      }
      d
    }

    /** On a viewport of odd width and height, the ray through the middle
        pixel points straight ahead: (0, 0, -far) in camera space. */
    lemma MiddleRayStraightAhead()
      requires width > 0 && height > 0 && width % 2 == 1 && height % 2 == 1
      ensures CameraSpaceRay(height / 2, width / 2) == Vec3(0.0, 0.0, -far)
    {
      assert height - 1 - height / 2 == height / 2;
      MiddlePixelCentre(width);
      MiddlePixelCentre(height);
    }

    /** getRayDir: the camera-space vector taken to world space as a
        direction (w = 0), so only the upper-left block of the inverse view
        matrix acts on it and its translation column plays no part. */
    function GetRayDir(i: int, j: int): (r: Vec4)
      reads this
      requires width > 0 && height > 0
      ensures r == Extend(MulMV3(UpperLeft(invView), CameraSpaceRay(i, j)),
                          Dot(Vec3(invView.c0.w, invView.c1.w, invView.c2.w), CameraSpaceRay(i, j)))
    {
      DirectionIgnoresTranslation(invView, CameraSpaceRay(i, j));
      MulMV4(invView, Extend(CameraSpaceRay(i, j), 0.0))
    }

    /** applyTranslation: moves the camera by disp and recomputes the view.
        Nothing but the position and the two matrices changes. */
    method ApplyTranslation(disp: Vec3)
      requires Valid()
      modifies this`pos, this`view, this`invView
      ensures Valid()
      ensures pos == Add(old(pos), disp)
      ensures look == old(look) && up == old(up)
      ensures width == old(width) && height == old(height) && near == old(near) && far == old(far)
      ensures MulMV4(view, Extend(Add(old(pos), disp), 1.0)) == Origin
    {
      pos := Add(pos, disp);
      SetViewMatrix();
      ViewSendsPositionToOrigin(pos, CameraBasis(lib, look, up));
    }

    /** onWPressed: forward along look. */
    function OnWPressed(): (d: Vec3)
      reads this
      ensures Cross(d, look) == Zero3 && Dot(d, look) == KeySensitivity * Norm2(look)
    {
      Scale(KeySensitivity, look)
    }

    /** onSPressed: backward, the exact opposite of W. */
    function OnSPressed(): (d: Vec3)
      reads this
      ensures d == Neg(OnWPressed())
      ensures Add(OnWPressed(), d) == Zero3
    {
      Scale(-KeySensitivity, look)
    }

    /** onDPressed: strafe right along look x up, perpendicular to both. */
    function OnDPressed(): (d: Vec3)
      reads this
      ensures Dot(d, look) == 0.0 && Dot(d, up) == 0.0
    {
      CrossOrthogonal(look, up);
      DotScale(KeySensitivity, Cross(look, up), look);
      DotScale(KeySensitivity, Cross(look, up), up);
      Scale(KeySensitivity, Cross(look, up))
    }

    /** onAPressed: strafe left, the exact opposite of D. */
    function OnAPressed(): (d: Vec3)
      reads this
      ensures d == Neg(OnDPressed())
      ensures Add(OnDPressed(), d) == Zero3
    {
      Scale(-KeySensitivity, Cross(look, up))
    }

    /** onSpacePressed: one unit up the world y axis. */
    function OnSpacePressed(): (d: Vec3)
      ensures Norm2(d) == 1.0 && d.y == 1.0
    {
      Vec3(0.0, 1.0, 0.0)
    }

    /** onControlPressed: one unit down the world y axis, the opposite of Space. */
    function OnControlPressed(): (d: Vec3)
      ensures d == Neg(OnSpacePressed())
    {
      Vec3(0.0, -1.0, 0.0)
    }

    /** applyRotation: replaces look by m look and recomputes the view;
        position and up are untouched. */
    method ApplyRotation(m: Mat3)
      requires Valid()
      modifies this`look, this`view, this`invView
      ensures Valid()
      ensures look == MulMV3(m, old(look))
      ensures pos == old(pos) && up == old(up)
    {
      look := MulMV3(m, look);
      SetViewMatrix();
    }

    /** rotateX: turns look about the world y axis by the mouse angle of
        deltaX over the viewport width. What that does to look is proved
        about Yaw. */
    method RotateX(deltaX: real)
      requires Valid()
      modifies this`look, this`view, this`invView
      ensures Valid()
      ensures look == Yaw(lib, old(look), MouseAngle(deltaX, width))
      ensures pos == old(pos) && up == old(up)
    {
      var theta := MouseAngle(deltaX, width);
      var rotationMat := YawMatrix(lib.sin(theta), lib.cos(theta));
      ApplyRotation(rotationMat);
    }

    /** rotateY: turns look by Rodrigues' formula about the axis look x up
        (not normalised), by the mouse angle of deltaY over the viewport
        height. What that does to look is proved about Pitch. */
    method RotateY(deltaY: real)
      requires Valid()
      modifies this`look, this`view, this`invView
      ensures Valid()
      ensures look == Pitch(lib, old(look), up, MouseAngle(deltaY, height))
      ensures pos == old(pos) && up == old(up)
    {
      var theta := MouseAngle(deltaY, height);
      var axis := Cross(look, up);
      var rotationMat := RodriguesMatrix(lib.sin(theta), lib.cos(theta), axis);
      ApplyRotation(rotationMat);
    }
  }
}
