# Scene-file parser of a small Python ray tracer, in Dafny

The repository is the start of a Whitted-style ray tracer. Its only logic
beyond I/O and library calls is `parse` in parser.py. It reads a line-oriented scene file and
returns the camera, the render settings (the class `Set`), and the lists of
materials, lights and shapes. The records themselves are the plain dataclasses
of classes.py.

This project models that parser:

- `wrappers.dfy` defines `Option` and `Result`. A Python exception becomes an `Err` value.
- `classes.dfy` (module `Classes`) defines one datatype per dataclass. A numpy
  vector is a `seq<real>` whose length is set by the slice the parser takes.
  The class `Set` is named `Settings`, and `Shape` with its three subclasses is
  one datatype with three constructors.
- `text.dfy` (module `Text`) models Python's `str.strip()` and `str.split()`.
  Both use exactly the characters `str.isspace` accepts.
- `fields.dfy` (module `Fields`) holds the per-line part of `parse`:
  - converting the fields to numbers (`ConvertAll`);
  - `int()` on a float (`Trunc`);
  - building each record from fixed field positions;
  - the `if`/`elif` chain on the code (`Dispatch`).
- `parser.dfy` (module `Parser`) holds the loop. `Classify` is one pass of
  the loop body up to the record it builds: strip, skip, split, convert,
  dispatch. `ParseWith` is a method with a `for` loop over the lines. Like the
  Python loop, it reassigns the camera and the settings, appends to the three
  lists, and returns the first exception raised. It is written for any
  per-line step and proved equal to `SceneWith`, a left fold of that step
  followed by the final `return`. `Parse` runs it with the step `Classify`,
  so it returns `SceneOf`.
  Lemmas relate that fold to a separate description. `Records` is the record
  each line produces. The lists are the records of each kind in file order
  (`Collect`). The camera and the settings are the last ones (`Latest`).

The field positions are modelled as parser.py writes them:

| record | field in the model | fields read |
|---|---|---|
| camera | `look_at` | 3..4 (two components) |
| camera | `up` | 5..7 |
| camera | `screen_dist` | 9 |
| material | `specular_rgb` | 3..4 (two components) |
| material | `reflect_rgb` | 5..7 |
| material | `phong` | 9 |
| light | `rgb` | 3..4 (two components) |
| light | `specular_intens` | 6 |
| light | `shadow_intens` | 7 |

Nothing reads field 8 of a `cam` line, field 8 of an `mtl` line, or field 5 of
an `lgt` line.

The intended layout has three numbers per vector: the camera's positions and
directions and the colours are 3-D values. A line written that way therefore
shifts: the camera's `up` becomes `(look_at.z, up.x, up.y)`, the
material's `reflect_rgb` becomes `(specular.b, reflect.r, reflect.g)`, and the
light loses its blue component. The `...FromLayout` lemmas state this.

A scene is meant to have exactly one `cam` line and one `set` line, since `parse` returns a single camera and a single settings record.
The code takes the last of each and fails with an unbound name when one is
missing. It stores a shape's material index as `int(field 4)`, with no range
check and no 1-based adjustment. The model follows the code in all three
places.

Errors are values of `ParseError`:

- `BadFloat(token)` is the ValueError from `float`.
- `TooFewFields(code, count)` is the IndexError from reading past the end of the field list.
- `Unbound(name)` is the UnboundLocalError at the final `return`. `camera` is reported before `set_params`, because the returned tuple evaluates it first.

## Model

| member | source | states |
|---|---|---|
| Text.Strip | parser.py:12 | the result is an infix of the line with only whitespace removed at either end, it neither starts nor ends with whitespace, and it is empty exactly when the line is all whitespace |
| Text.IsSpace | parser.py:12-17 | no contract of its own: it is the set of characters `str.isspace` accepts, which `strip` and `split` remove; `AsciiSpace` pins its ASCII part, and the contracts of `Strip` and `Split` are stated in terms of it |
| Text.AsciiSpace | parser.py:12-17 | among ASCII characters exactly tab, line feed, vertical tab, form feed, carriage return, 0x1C..0x1F and space are whitespace, so no digit, letter, sign, `.` or `#` is stripped or split on |
| Text.Split | parser.py:17 | every token is non-empty and whitespace-free, and the tokens together are the line's non-whitespace characters in order |
| Text.SplitAtSpace | parser.py:17 | splitting at a whitespace character gives the tokens of the left part followed by those of the right part |
| Text.SplitJoinSpaced | parser.py:17 | non-empty whitespace-free tokens joined by spaces split back into the same tokens |
| Fields.Trunc | parser.py:27-28 | `int()` of a float truncates toward zero: the result is within one of the input, on the zero side |
| Fields.TruncOfInteger | parser.py:38 | `int()` gives back an integer that was written as a float |
| Fields.ConvertAll | parser.py:17 | conversion succeeds exactly when every token converts, giving one number per token in order; otherwise the error names the first token that does not convert |
| Fields.CameraOf | parser.py:20-24 | a `cam` record is built exactly when there are at least 11 fields (else IndexError); position and up have 3 components, look_at has 2 |
| Fields.SettingsOf | parser.py:26-28 | a `set` record is built exactly when there are at least 5 fields; the background has 3 components |
| Fields.MaterialOf | parser.py:30-34 | an `mtl` record is built exactly when there are at least 11 fields; diffuse and reflect have 3 components, specular has 2 |
| Fields.LightOf | parser.py:48-52 | an `lgt` record is built exactly when there are at least 9 fields; position has 3 components, rgb has 2 |
| Fields.ShapeOf | parser.py:35-46 | `sph`, `pln` and `box` give a sphere, a plane or a box, built exactly when there are at least 5 fields, whatever the material index's value |
| Fields.Dispatch | parser.py:19-52 | a known code fails exactly when the line has fewer fields than `MinFields(code)`, one more than the highest index its branch reads, and otherwise yields exactly the record its branch builds (`CameraOf`, `SettingsOf`, `MaterialOf`, `LightOf` or `ShapeOf` of the fields, whose slots the `...FromLayout` lemmas give); an unknown code yields no record |
| Fields.MinFields | parser.py:19-52 | a code needs fields exactly when it is one of the seven known codes, and then between 5 and 11; the exact count per code (11 for `cam` and `mtl`, 9 for `lgt`, 5 for `set` and the shapes) follows from `Dispatch`'s contract, which fails exactly below `MinFields(code)` and succeeds exactly when the code's builder does, together with the builders' own thresholds |
| Fields.CameraFromLayout | parser.py:20-24 | for position, look_at and up of three numbers each, then distance and width: look_at keeps two components, up is (look_at.z, up.x, up.y), distance and width land where written, extra fields are ignored |
| Fields.SettingsFromLayout | parser.py:26-28 | the background is fields 0..2, and the shadow-ray root and recursion depth are fields 3 and 4 truncated toward zero |
| Fields.MaterialFromLayout | parser.py:30-34 | for diffuse, specular and reflect of three numbers each, then phong and transparency: specular keeps two components, reflect is (specular.b, reflect.r, reflect.g), phong and transparency land where written |
| Fields.LightFromLayout | parser.py:48-52 | for position and rgb of three numbers each, then three scalars: rgb loses its third component, and specular intensity, shadow intensity and radius land where written |
| Fields.ShapeFromLayout | parser.py:35-46 | the vector is fields 0..2, the scalar field 3, and the material index is field 4 truncated toward zero, with no range check |
| Parser.Skipped | parser.py:12-14 | no contract of its own: `SkippedLines` characterises it, and `StepCases` with `SkippedLineHasNoEffect` says such a line yields no record |
| Parser.SkippedLines | parser.py:12-13 | a line is skipped exactly when it is all whitespace or its first character that is not whitespace is `#` |
| Parser.LineCode | parser.py:16 | the code is the first three characters of the stripped line, or the whole of it when it is shorter |
| Parser.LineFields | parser.py:17 | the code followed by the rest is the stripped line again |
| Parser.Classify | parser.py:12-52 | no contract of its own: `SkippedLineHasNoEffect`, `UnknownCodeHasNoEffect`, `NonNumericFieldFails` and `TooFewFieldsFails` characterise it by what each of its outcomes (a skipped line, an unknown code, a field that is not a number, too few fields) does to the whole parse, and `Dispatch`'s contract gives the record a known code yields |
| Parser.Apply | parser.py:19-52 | a camera or settings record rebinds its name and leaves the other unchanged; the lists only grow, keeping their elements in order; a material, light or shape record appends exactly one element to its own list and no other list changes |
| Parser.Run | parser.py:11-52 | the lists hold at most one element per line; `RunStopsAtError`, `RunDropsNoRecord` and `RunMatchesRecords` state its behaviour |
| Parser.Finish | parser.py:54 | the return succeeds exactly when `camera` and `set_params` are both bound; an unbound `camera` is reported first, then `set_params`; otherwise the tuple holds the bound values and the three lists |
| Parser.SceneWith | parser.py:11-54 | no contract of its own: the loop followed by the return; `SceneFromRecords` characterises it for any per-line step, and `ParseWith` implements it |
| Parser.SceneOf | parser.py:6-54 | no contract of its own: `SceneWith` with the step `Classify`; `Parse` implements it, and the lemmas on single lines are stated on it |
| Parser.Parse | parser.py:6-54 | `parse` returns exactly what the fold specification `SceneOf` gives: the scene, or the error of the first failing line, or the unbound name |
| Parser.ParseWith | parser.py:9-54 | for any per-line step, the loop that rebinds the camera and settings and appends to the lists returns what the fold `SceneWith` of that step gives |
| Parser.RunStopsAtError | parser.py:11-52 | once a line raises, the lines after it change nothing: the parse fails with that line's error |
| Parser.RunDropsNoRecord | parser.py:11-52 | a line that yields no record can be removed from anywhere in the file without changing the outcome |
| Parser.SkippedLineHasNoEffect | parser.py:12-14 | a blank line, or one that starts with `#` after stripping, has no effect on the result wherever it stands |
| Parser.UnknownCodeHasNoEffect | parser.py:19-52 | a line with numeric fields and a code other than the seven known ones has no effect on the result |
| Parser.NonNumericFieldFails | parser.py:16-17 | a non-skipped line with a non-numeric field fails the whole parse with that token, whatever its code |
| Parser.TooFewFieldsFails | parser.py:19-52 | a line with a known code and numeric fields fails exactly when it has fewer fields than the code needs, and the parse then fails with that error |
| Parser.Records | parser.py:11-52 | either every line yields a record, in order, or the error is that of the first line that raises, all earlier lines yielding records |
| Parser.Latest | parser.py:19-28 | the record kept is the last one of its kind: none exactly when there is none, otherwise one with no record of its kind after it |
| Parser.RunMatchesRecords | parser.py:11-52 | the loop fails exactly when some line raises, with the first error; otherwise the lists hold the materials, lights and shapes in file order, and the camera and settings are the last ones |
| Parser.SceneFromRecords | parser.py:19-54 | for any per-line step, so for `parse` too: parsing succeeds exactly when no line raises and there is a `cam` and a `set` line; the scene then holds the last camera and settings and all other records in file order; no `cam` fails on `camera`, and a `cam` without `set` fails on `set_params` |

## Left out

- Opening and reading the file (parser.py:7, parser.py:11): the model takes the file's lines as a sequence of strings. Python's newline translation is not modelled. The error raised when the file cannot be opened is not modelled either.
- The debug `print(code, values)` (parser.py:18) has no effect on the result.
- Decimal text-to-float conversion (parser.py:17) is a parameter, `Converter`, a partial function from token to `real`. Floating-point rounding is not modelled.
- Non-finite floats (`inf`, `nan`) have no `real` value, so the errors `int()` raises on them are not modelled.
- Error messages: each exception is represented by its kind and the data named above, not by Python's message text.
- Python strings may hold lone surrogate code points, which a Dafny `char` cannot.
- numpy arrays are plain sequences; no numpy operation is applied to them in the parser.
- The ray-tracing pipeline (intersection, shading, camera rays, soft shadows) does not exist in the source. `Shape.find_intersection` only raises NotImplementedError (classes.py:44-46), and the shape subclasses have no methods.
- tests.py exercises an intersection method that is not implemented, and it imports a `Ray` class that classes.py does not define.
- plotting.py (matplotlib debug plots), RayTracer.py (command-line arguments, only printed), and `write_img` and `is_close` in utils.py (image file output, and a floating-point tolerance check) are I/O or library calls outside the parser.
