/** The per-capture uniform bundle and the scalar arithmetic behind it: the
    anti-alias width in frame units and the target shape of `resize_frame_shape`. */
module Perspective {
  import opened Frame
  import opened Gl

  /** `anti_alias_width / (ph / fh)`: a width given in pixels, expressed in frame
      units. Converting the result back to pixels gives the configured width. */
  function AntiAliasWidth(antiAliasWidth: real, frameHeight: real, pixelHeight: nat): (r: real)
    requires pixelHeight > 0 && frameHeight != 0.0
    ensures r * ((pixelHeight as real) / frameHeight) == antiAliasWidth
  {
    antiAliasWidth / ((pixelHeight as real) / frameHeight)
  }

  /** The frame shape `resize_frame_shape` aims for: the dimension that is not fixed
      is recomputed so that the frame has the pixel aspect ratio. */
  function ResizeTarget(pixelWidth: nat, pixelHeight: nat, frameWidth: real, frameHeight: real,
                        fixedDimension: int): (r: (real, real))
    requires pixelHeight > 0
    requires fixedDimension == 0 ==> pixelWidth > 0
    ensures r.0 * (pixelHeight as real) == r.1 * (pixelWidth as real)
    ensures fixedDimension == 0 ==> r.0 == frameWidth
    ensures fixedDimension != 0 ==> r.1 == frameHeight
  {
    var aspectRatio := (pixelWidth as real) / (pixelHeight as real);
    if fixedDimension == 0 then (frameWidth, frameWidth / aspectRatio)
    else (aspectRatio * frameHeight, frameHeight)
  }

  /** With square pixels of equal count, holding the width makes the frame square. */
  lemma ResizeSquarePixels(pixels: nat, frameWidth: real, frameHeight: real)
    requires pixels > 0
    ensures ResizeTarget(pixels, pixels, frameWidth, frameHeight, 0) == (frameWidth, frameWidth)
  {
  }

  function Dot(a: Point, b: Point): real
  {
    a.x * b.x + a.y * b.y + a.z * b.z
  }

  const IDENTITY: Matrix3 := Matrix3(Point(1.0, 0.0, 0.0), Point(0.0, 1.0, 0.0), Point(0.0, 0.0, 1.0))

  /** `np.dot(m, v)`: the identity keeps a vector, and every matrix keeps the origin. */
  function MatVec(m: Matrix3, v: Point): (r: Point)
    ensures m == IDENTITY ==> r == v
    ensures v == Point(0.0, 0.0, 0.0) ==> r == v
  {
    Point(Dot(m.r0, v), Dot(m.r1, v), Dot(m.r2, v))
  }

  /** The entry in row `i` and column `j`, counting from 0. */
  function Entry(m: Matrix3, i: nat, j: nat): real
    requires i < 3 && j < 3
  {
    var row := if i == 0 then m.r0 else if i == 1 then m.r1 else m.r2;
    if j == 0 then row.x else if j == 1 then row.y else row.z
  }

  /** `tuple(np.array(m).T.flatten())`: the matrix column by column. */
  function FlattenTransposed(m: Matrix3): (r: seq<real>)
    ensures |r| == 9
    ensures forall i: nat, j: nat :: i < 3 && j < 3 ==> r[3 * j + i] == Entry(m, i, j)
  {
    [m.r0.x, m.r1.x, m.r2.x, m.r0.y, m.r1.y, m.r2.y, m.r0.z, m.r1.z, m.r2.z]
  }

  /** The uniforms `refresh_perspective_uniforms` computes, in its order. */
  function PerspectiveUniforms(points: seq<Point>, rotation: Matrix3, focalDistanceRatio: real,
                               pixelHeight: nat, antiAliasWidth: real, light: Point): (r: seq<(string, UniformValue)>)
    requires |points| >= 5 && pixelHeight > 0 && Height(points) != 0.0
    ensures |r| == 6
    ensures r[0] == ("frame_shape", TupleValue([Width(points), Height(points)]))
    ensures r[1].0 == "anti_alias_width" && r[1].1.FloatValue?
    ensures r[1].1.f * ((pixelHeight as real) / Height(points)) == antiAliasWidth
    ensures r[2] == ("camera_center", TupleValue([points[0].x, points[0].y, points[0].z]))
    ensures r[3] == ("camera_rotation", TupleValue(FlattenTransposed(rotation))) && |r[3].1.items| == 9
    ensures r[4] == ("light_source_position", TupleValue([MatVec(rotation, light).x, MatVec(rotation, light).y, MatVec(rotation, light).z]))
    ensures rotation == IDENTITY ==> r[4].1 == TupleValue([light.x, light.y, light.z])
    ensures r[5] == ("focal_distance", FloatValue(focalDistanceRatio * Height(points)))
  {
    var lightPos := MatVec(rotation, light);
    [("frame_shape", TupleValue([Width(points), Height(points)])),
     ("anti_alias_width", FloatValue(AntiAliasWidth(antiAliasWidth, Height(points), pixelHeight))),
     ("camera_center", TupleValue([Center(points).x, Center(points).y, Center(points).z])),
     ("camera_rotation", TupleValue(FlattenTransposed(rotation))),
     ("light_source_position", TupleValue([lightPos.x, lightPos.y, lightPos.z])),
     ("focal_distance", FloatValue(FocalDistance(focalDistanceRatio, points)))]
  }
}
