/**
 * The per-line half of parser.py's `parse`: turning the number fields of one
 * line into a record, using the fixed field positions the parser reads.
 *
 * The field slices are those of parser.py as written. In particular
 * `look_at`, a material's `specular_rgb` and a light's `rgb` are two-element
 * slices, so for a line in the intended layout (three numbers per vector)
 * the fields after them shift by one; the `...FromLayout` lemmas below spell
 * out what each record then holds.
 */
module Fields {
  import opened Wrappers
  import opened Classes

  /** The exceptions `parse` can raise, as values. */
  datatype ParseError =
    | BadFloat(token: string)                 // ValueError from `float(v)`
    | TooFewFields(code: string, count: nat)  // IndexError from `values[i]`
    | Unbound(name: string)                   // UnboundLocalError at the final `return`

  /**
   * Python's `float(v)` on one token: a partial conversion the model takes as
   * a parameter (`None` where Python raises ValueError).
   */
  type Converter = string -> Option<real>

  /** Python's `int(x)` on a float: truncation toward zero. */
  function Trunc(x: real): (r: int)
    ensures 0.0 <= x ==> r as real <= x < r as real + 1.0
    ensures x < 0.0 ==> r as real - 1.0 < x <= r as real
  {
    if 0.0 <= x then x.Floor else -((-x).Floor)
  }

  /** `int` undoes the conversion of an integer to a float. */
  lemma TruncOfInteger(n: int)
    ensures Trunc(n as real) == n
  {
  }

  /**
   * `[float(v) for v in tokens]`: every token converted in order, or the
   * error of the first token that does not convert.
   */
  function ConvertAll(conv: Converter, tokens: seq<string>): (r: Result<seq<real>, ParseError>)
    ensures r.Ok? <==> forall k :: 0 <= k < |tokens| ==> conv(tokens[k]).Some?
    ensures r.Ok? ==> (|r.value| == |tokens|
                       && forall k :: 0 <= k < |tokens| ==> conv(tokens[k]) == Some(r.value[k]))
    ensures r.Err? ==> (exists k :: 0 <= k < |tokens| && r.error == BadFloat(tokens[k])
                          && conv(tokens[k]).None? && forall j :: 0 <= j < k ==> conv(tokens[j]).Some?)
    decreases |tokens|
  {
    if tokens == [] then Ok([])
    else
      match conv(tokens[0])
      case None => Err(BadFloat(tokens[0]))
      case Some(x) =>
        var rest := ConvertAll(conv, tokens[1..]);
        if rest.Err? then
          ghost var k :| 0 <= k < |tokens| - 1 && rest.error == BadFloat(tokens[1..][k])
            && conv(tokens[1..][k]).None? && forall j :: 0 <= j < k ==> conv(tokens[1..][j]).Some?;
          assert conv(tokens[k + 1]).None? && forall j :: 0 <= j < k + 1 ==> conv(tokens[j]).Some?;
          Err(rest.error)
        else
          Ok([x] + rest.value)
  }

  /** `cam`: reads up to field 10, so it needs at least 11 fields. */
  function CameraOf(v: seq<real>): (r: Result<Camera, ParseError>)
    ensures r.Ok? <==> 11 <= |v|
    ensures r.Err? ==> r.error == TooFewFields("cam", |v|)
    ensures r.Ok? ==> |r.value.position| == 3 && |r.value.lookAt| == 2 && |r.value.up| == 3
  {
    if |v| < 11 then Err(TooFewFields("cam", |v|))
    else Ok(Camera(position := v[0..3], lookAt := v[3..5], up := v[5..8],
                   screenDist := v[9], screenWidth := v[10]))
  }

  /** `set`: reads up to field 4, so it needs at least 5 fields. */
  function SettingsOf(v: seq<real>): (r: Result<Settings, ParseError>)
    ensures r.Ok? <==> 5 <= |v|
    ensures r.Err? ==> r.error == TooFewFields("set", |v|)
    ensures r.Ok? ==> |r.value.backgroundRgb| == 3
  {
    if |v| < 5 then Err(TooFewFields("set", |v|))
    else Ok(Settings(backgroundRgb := v[0..3], rootShadowRays := Trunc(v[3]),
                     maxRecursions := Trunc(v[4])))
  }

  /** `mtl`: reads up to field 10, so it needs at least 11 fields. */
  function MaterialOf(v: seq<real>): (r: Result<Material, ParseError>)
    ensures r.Ok? <==> 11 <= |v|
    ensures r.Err? ==> r.error == TooFewFields("mtl", |v|)
    ensures r.Ok? ==> |r.value.diffuseRgb| == 3 && |r.value.specularRgb| == 2 && |r.value.reflectRgb| == 3
  {
    if |v| < 11 then Err(TooFewFields("mtl", |v|))
    else Ok(Material(diffuseRgb := v[0..3], specularRgb := v[3..5], reflectRgb := v[5..8],
                     phong := v[9], transp := v[10]))
  }

  /** `lgt`: reads up to field 8, so it needs at least 9 fields. */
  function LightOf(v: seq<real>): (r: Result<Light, ParseError>)
    ensures r.Ok? <==> 9 <= |v|
    ensures r.Err? ==> r.error == TooFewFields("lgt", |v|)
    ensures r.Ok? ==> |r.value.position| == 3 && |r.value.rgb| == 2
  {
    if |v| < 9 then Err(TooFewFields("lgt", |v|))
    else Ok(Light(position := v[0..3], rgb := v[3..5], specularIntens := v[6],
                  shadowIntens := v[7], radius := v[8]))
  }

  predicate IsShapeCode(code: string) {
    code == "sph" || code == "pln" || code == "box"
  }

  /**
   * `sph`, `pln` and `box`: vector from fields 0..2, scalar from field 3,
   * material index `int(field 4)`; needs at least 5 fields. Success does not
   * depend on the index's value: there is no range check.
   */
  function ShapeOf(code: string, v: seq<real>): (r: Result<Shape, ParseError>)
    requires IsShapeCode(code)
    ensures r.Ok? <==> 5 <= |v|
    ensures r.Err? ==> r.error == TooFewFields(code, |v|)
    ensures r.Ok? ==> ((code == "sph" <==> r.value.Sphere?) && (code == "pln" <==> r.value.Plane?)
                       && (code == "box" <==> r.value.Box?))
  {
    if |v| < 5 then Err(TooFewFields(code, |v|))
    else if code == "sph" then Ok(Sphere(material := Trunc(v[4]), center := v[0..3], radius := v[3]))
    else if code == "pln" then Ok(Plane(material := Trunc(v[4]), normal := v[0..3], offset := v[3]))
    else Ok(Box(material := Trunc(v[4]), center := v[0..3], length := v[3]))
  }

  /** What one line contributes: nothing, or one record of one kind. */
  datatype Entry =
    | NoRecord
    | CameraRec(camera: Camera)
    | SettingsRec(settings: Settings)
    | MaterialRec(material: Material)
    | LightRec(light: Light)
    | ShapeRec(shape: Shape)

  /** The seven codes the parser recognises. */
  predicate KnownCode(code: string) {
    code == "cam" || code == "set" || code == "mtl" || code == "lgt" || IsShapeCode(code)
  }

  /**
   * The fewest fields a line with this code must have: one more than the
   * highest index its branch reads (`values[10]`, `values[8]`, `values[4]`).
   * Only the seven known codes read any field.
   */
  function MinFields(code: string): (n: nat)
    ensures n > 0 <==> KnownCode(code)
    ensures KnownCode(code) ==> 5 <= n <= 11
  {
    if code == "cam" || code == "mtl" then 11
    else if code == "lgt" then 9
    else if code == "set" || IsShapeCode(code) then 5
    else 0
  }

  /** The code that produces a record of this kind. */
  function CodeOf(e: Entry): string {
    match e
    case NoRecord => ""
    case CameraRec(_) => "cam"
    case SettingsRec(_) => "set"
    case MaterialRec(_) => "mtl"
    case LightRec(_) => "lgt"
    case ShapeRec(s) => if s.Sphere? then "sph" else if s.Plane? then "pln" else "box"
  }

  /**
   * The `if`/`elif` chain on the code. An unknown code yields no record (the
   * chain has no `else`); a known code yields the record its branch builds
   * from the fields, or fails exactly when the line has too few fields.
   */
  function Dispatch(code: string, v: seq<real>): (r: Result<Entry, ParseError>)
    ensures r.Err? <==> |v| < MinFields(code)
    ensures r.Err? ==> r.error == TooFewFields(code, |v|)
    ensures r.Ok? ==> (r.value == NoRecord <==> !KnownCode(code))
    ensures r.Ok? && KnownCode(code) ==> CodeOf(r.value) == code
    ensures code == "cam" ==> (r.Ok? <==> CameraOf(v).Ok?) && (r.Ok? ==> r.value == CameraRec(CameraOf(v).value))
    ensures code == "set" ==> (r.Ok? <==> SettingsOf(v).Ok?) && (r.Ok? ==> r.value == SettingsRec(SettingsOf(v).value))
    ensures code == "mtl" ==> (r.Ok? <==> MaterialOf(v).Ok?) && (r.Ok? ==> r.value == MaterialRec(MaterialOf(v).value))
    ensures code == "lgt" ==> (r.Ok? <==> LightOf(v).Ok?) && (r.Ok? ==> r.value == LightRec(LightOf(v).value))
    ensures IsShapeCode(code)
            ==> (r.Ok? <==> ShapeOf(code, v).Ok?) && (r.Ok? ==> r.value == ShapeRec(ShapeOf(code, v).value))
  {
    if code == "cam" then
      var c :- CameraOf(v); Ok(CameraRec(c))
    else if code == "set" then
      var s :- SettingsOf(v); Ok(SettingsRec(s))
    else if code == "mtl" then
      var m :- MaterialOf(v); Ok(MaterialRec(m))
    else if IsShapeCode(code) then
      var s :- ShapeOf(code, v); Ok(ShapeRec(s))
    else if code == "lgt" then
      var l :- LightOf(v); Ok(LightRec(l))
    else
      Ok(NoRecord)
  }

  /**
   * A `cam` line in the intended layout (position, look_at, up, each of three
   * numbers, then screen distance and width) keeps only two components of
   * look_at, takes look_at's third component as up's first, and drops up's
   * third; any fields past the eleventh are ignored.
   */
  lemma CameraFromLayout(position: seq<real>, lookAt: seq<real>, up: seq<real>,
                         dist: real, width: real, extra: seq<real>)
    requires |position| == 3 && |lookAt| == 3 && |up| == 3
    ensures CameraOf(position + lookAt + up + [dist, width] + extra)
         == Ok(Camera(position, lookAt[..2], [lookAt[2], up[0], up[1]], dist, width))
  {
    var v := position + lookAt + up + [dist, width] + extra;
    assert v[0..3] == position;
    assert v[3..5] == lookAt[..2];
    assert v[5..8] == [lookAt[2], up[0], up[1]];
  }

  /**
   * A `set` line stores the background from fields 0..2 and its two counts
   * truncated toward zero; integral counts therefore read back unchanged
   * (`TruncOfInteger`).
   */
  lemma SettingsFromLayout(background: seq<real>, shadowRays: real, recursions: real, extra: seq<real>)
    requires |background| == 3
    ensures SettingsOf(background + [shadowRays, recursions] + extra)
         == Ok(Settings(background, Trunc(shadowRays), Trunc(recursions)))
  {
    var v := background + [shadowRays, recursions] + extra;
    assert v[0..3] == background;
  }

  /**
   * An `mtl` line in the intended layout (diffuse, specular, reflect, each of
   * three numbers, then phong and transparency) keeps two components of
   * specular, shifts reflect by one and drops its third component; phong and
   * transparency land in fields 9 and 10, where the layout puts them.
   */
  lemma MaterialFromLayout(diffuse: seq<real>, specular: seq<real>, reflect: seq<real>,
                           phong: real, transp: real, extra: seq<real>)
    requires |diffuse| == 3 && |specular| == 3 && |reflect| == 3
    ensures MaterialOf(diffuse + specular + reflect + [phong, transp] + extra)
         == Ok(Material(diffuse, specular[..2], [specular[2], reflect[0], reflect[1]], phong, transp))
  {
    var v := diffuse + specular + reflect + [phong, transp] + extra;
    assert v[0..3] == diffuse;
    assert v[3..5] == specular[..2];
    assert v[5..8] == [specular[2], reflect[0], reflect[1]];
  }

  /**
   * An `lgt` line in the intended layout (position, rgb, each of three
   * numbers, then specular intensity, shadow intensity and radius) loses the
   * third rgb component; the three scalars land in fields 6 to 8, where the
   * layout puts them.
   */
  lemma LightFromLayout(position: seq<real>, rgb: seq<real>, specular: real, shadow: real,
                        radius: real, extra: seq<real>)
    requires |position| == 3 && |rgb| == 3
    ensures LightOf(position + rgb + [specular, shadow, radius] + extra)
         == Ok(Light(position, rgb[..2], specular, shadow, radius))
  {
    var v := position + rgb + [specular, shadow, radius] + extra;
    assert v[0..3] == position;
    assert v[3..5] == rgb[..2];
  }

  /**
   * A shape line in the intended layout (a three-number vector, a scalar and
   * a material index) reads back with the index truncated toward zero and
   * stored whatever its value.
   */
  lemma ShapeFromLayout(code: string, vector: seq<real>, scalar: real, material: real, extra: seq<real>)
    requires IsShapeCode(code) && |vector| == 3
    ensures ShapeOf(code, vector + [scalar, material] + extra)
         == Ok(if code == "sph" then Sphere(Trunc(material), vector, scalar)
               else if code == "pln" then Plane(Trunc(material), vector, scalar)
               else Box(Trunc(material), vector, scalar))
  {
    var v := vector + [scalar, material] + extra;
    assert v[0..3] == vector;
  }
}
