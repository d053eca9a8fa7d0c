/**
 * The scene records of classes.py. Each numpy vector is a `seq<real>`; its
 * length is whatever slice the parser takes, so it is not fixed here.
 */
module Classes {

  datatype Camera = Camera(
    position: seq<real>,
    lookAt: seq<real>,
    up: seq<real>,
    screenDist: real,
    screenWidth: real)

  /** The class named `Set` in classes.py: global render settings. */
  datatype Settings = Settings(
    backgroundRgb: seq<real>,
    rootShadowRays: int,
    maxRecursions: int)

  datatype Material = Material(
    diffuseRgb: seq<real>,
    specularRgb: seq<real>,
    reflectRgb: seq<real>,
    phong: real,
    transp: real)

  datatype Light = Light(
    position: seq<real>,
    rgb: seq<real>,
    specularIntens: real,
    shadowIntens: real,
    radius: real)

  /**
   * The three subclasses of `Shape`. `material` is the raw integer read from
   * the file; nothing checks it against the material list.
   */
  datatype Shape =
    | Sphere(material: int, center: seq<real>, radius: real)
    | Plane(material: int, normal: seq<real>, offset: real)
    | Box(material: int, center: seq<real>, length: real)

  /** What `parse` returns: camera, settings, materials, lights, shapes. */
  datatype Scene = Scene(
    camera: Camera,
    settings: Settings,
    materials: seq<Material>,
    lights: seq<Light>,
    shapes: seq<Shape>)
}
