/**
 * parser.py's `parse`: a loop over the lines of a scene file that skips blank
 * and comment lines, reads a three-character code and a list of numbers from
 * every other line, and either overwrites the camera or the settings or
 * appends a material, a light or a shape.
 *
 * `ParseWith` is that loop, for any per-line step, and `Parse` runs it with
 * `Classify`. `SceneOf` specifies it as a left fold (`Run`) of the per-line
 * step (`Classify`, then `Apply`), followed by the final `return` (`Finish`). The lemmas relate the fold to an
 * independent description: the list of records the lines produce
 * (`Records`), from which the lists are the records of each kind in file
 * order (`Collect`) and the camera and settings are the last ones (`Latest`).
 */
module Parser {
  import opened Wrappers
  import opened Text
  import opened Classes
  import opened Fields

  /** Blank after stripping, or a comment (`line.startswith('#')`). */
  predicate Skipped(line: string) {
    var t := Strip(line);
    t == [] || t[0] == '#'
  }

  /**
   * A line is skipped exactly when it is all whitespace or its first
   * character that is not whitespace is `#`.
   */
  lemma SkippedLines(line: string)
    ensures Skipped(line) <==> (AllSpace(line) || exists i :: 0 <= i < |line| && AllSpace(line[..i]) && line[i] == '#')
  {
    var r := Strip(line);
    var i :| StripCut(line, r, i);
    FirstAfterCut(line, r, i);
  }

  /** After a strip cut, the kept text starts with `#` exactly when `#` is the first character that is not whitespace. */
  lemma FirstAfterCut(line: string, r: string, i: nat)
    requires StripCut(line, r, i) && (r == [] || !IsSpace(r[0]))
    ensures (r != [] && r[0] == '#') <==> exists j :: 0 <= j < |line| && AllSpace(line[..j]) && line[j] == '#'
  {
  }

  /** `line[:3]`: the first three characters, or the whole line when it is shorter. */
  function LineCode(t: string): (code: string)
    ensures |code| <= 3 && code <= t
    ensures |code| < 3 ==> code == t
  {
    if |t| < 3 then t else t[..3]
  }

  /** `line[3:]`: what follows the code. */
  function LineFields(t: string): (fields: string)
    ensures LineCode(t) + fields == t
  {
    if |t| < 3 then [] else t[3..]
  }

  /** One iteration of the loop body, up to the record it builds. */
  function Classify(conv: Converter, line: string): Result<Entry, ParseError> {
    var t := Strip(line);
    if t == [] || t[0] == '#' then Ok(NoRecord)
    else
      var values :- ConvertAll(conv, Split(LineFields(t)));
      Dispatch(LineCode(t), values)
  }

  /** The loop's variables; `None` stands for a name not yet bound. */
  datatype State = State(
    camera: Option<Camera>,
    settings: Option<Settings>,
    materials: seq<Material>,
    lights: seq<Light>,
    shapes: seq<Shape>)

  const Start := State(None, None, [], [], [])

  /**
   * What the loop body does with the record of one line: a camera or a
   * settings record rebinds its name, and any other record is appended to
   * its own list; the other names and lists are unchanged.
   */
  function Apply(st: State, e: Entry): (r: State)
    ensures r.camera == (if e.CameraRec? then Some(e.camera) else st.camera)
    ensures r.settings == (if e.SettingsRec? then Some(e.settings) else st.settings)
    ensures st.materials <= r.materials && st.lights <= r.lights && st.shapes <= r.shapes
    ensures |r.materials| + |r.lights| + |r.shapes|
         == |st.materials| + |st.lights| + |st.shapes| + (if e.MaterialRec? || e.LightRec? || e.ShapeRec? then 1 else 0)
    ensures e.MaterialRec? ==> r.materials == st.materials + [e.material]
    ensures e.LightRec? ==> r.lights == st.lights + [e.light]
    ensures e.ShapeRec? ==> r.shapes == st.shapes + [e.shape]
  {
    match e
    case NoRecord => st
    case CameraRec(c) => st.(camera := Some(c))
    case SettingsRec(s) => st.(settings := Some(s))
    case MaterialRec(m) => st.(materials := st.materials + [m])
    case LightRec(l) => st.(lights := st.lights + [l])
    case ShapeRec(s) => st.(shapes := st.shapes + [s])
  }

  /** What one line yields: its record, or the exception it raises. */
  type LineStep = string -> Result<Entry, ParseError>

  /** `Classify` with the conversion of numbers fixed. */
  function StepOf(conv: Converter): LineStep {
    line => Classify(conv, line)
  }

  /**
   * The loop over `lines` with a given per-line step, stopping at the first
   * line that raises.
   */
  function Run(step: LineStep, lines: seq<string>): (r: Result<State, ParseError>)
    ensures r.Ok? ==> |r.value.materials| + |r.value.lights| + |r.value.shapes| <= |lines|
  {
    if lines == [] then Ok(Start)
    else
      var st :- Run(step, lines[..|lines| - 1]);
      var e :- step(lines[|lines| - 1]);
      Ok(Apply(st, e))
  }

  /**
   * The final `return`: it raises unless both `camera` and `set_params` are
   * bound, and `camera` is evaluated first.
   */
  function Finish(st: State): (r: Result<Scene, ParseError>)
    ensures r.Ok? <==> st.camera.Some? && st.settings.Some?
    ensures st.camera.None? ==> r == Err(Unbound("camera"))
    ensures st.camera.Some? && st.settings.None? ==> r == Err(Unbound("set_params"))
    ensures r.Ok? ==> r.value == Scene(st.camera.value, st.settings.value, st.materials, st.lights, st.shapes)
  {
    if st.camera.None? then Err(Unbound("camera"))
    else if st.settings.None? then Err(Unbound("set_params"))
    else Ok(Scene(st.camera.value, st.settings.value, st.materials, st.lights, st.shapes))
  }

  /** The loop with a given per-line step, then the final `return`. */
  function SceneWith(step: LineStep, lines: seq<string>): Result<Scene, ParseError> {
    var st :- Run(step, lines);
    Finish(st)
  }

  /** What `parse` returns or raises for a file with these lines. */
  function SceneOf(conv: Converter, lines: seq<string>): Result<Scene, ParseError> {
    SceneWith(StepOf(conv), lines)
  }

  /** parser.py's `parse`, over the lines of the file. */
  method Parse(conv: Converter, lines: seq<string>) returns (r: Result<Scene, ParseError>)
    ensures r == SceneOf(conv, lines)
  {
    r := ParseWith(StepOf(conv), lines);
  }

  /**
   * The loop of `parse` and its final `return`, for any per-line step. Like
   * the Python loop, it rebinds `camera` and `set_params`, appends to the
   * three lists, and stops at the first line that raises.
   */
  method ParseWith(step: LineStep, lines: seq<string>) returns (r: Result<Scene, ParseError>)
    ensures r == SceneWith(step, lines)
  {
    var camera: Option<Camera> := None;
    var settings: Option<Settings> := None;
    var materials: seq<Material> := [];
    var lights: seq<Light> := [];
    var shapes: seq<Shape> := [];
    for i := 0 to |lines|
      invariant Run(step, lines[..i]) == Ok(State(camera, settings, materials, lights, shapes))
    {
      RunOneMore(step, lines, i);
      var entry := step(lines[i]);
      if entry.Err? {
        RunFailsAt(step, lines, i);
        return Err(entry.error);
      }
      match entry.value {
        case NoRecord =>
        case CameraRec(c) => camera := Some(c);
        case SettingsRec(s) => settings := Some(s);
        case MaterialRec(m) => materials := materials + [m];
        case ShapeRec(s) => shapes := shapes + [s];
        case LightRec(l) => lights := lights + [l];
      }
    }
    assert lines[..|lines|] == lines;
    r := Finish(State(camera, settings, materials, lights, shapes));
  }

  /** One more iteration of the loop: the step of line `i` applied to the state after the first `i` lines. */
  lemma RunOneMore(step: LineStep, lines: seq<string>, i: nat)
    requires i < |lines|
    ensures Run(step, lines[..i + 1])
         == (var st :- Run(step, lines[..i]); var e :- step(lines[i]); Ok(Apply(st, e)))
  {
    assert lines[..i + 1][..i] == lines[..i];
  }

  /** Once a line has raised, the lines after it change nothing: the parse fails with that error. */
  lemma {:induction false} RunStopsAtError(step: LineStep, before: seq<string>, line: string, after: seq<string>)
    requires Run(step, before).Ok? && step(line).Err?
    ensures Run(step, before + [line] + after) == Err(step(line).error)
    decreases |after|
  {
    var all := before + [line] + after;
    if after == [] {
      assert all[..|all| - 1] == before;
    } else {
      var shorter := after[..|after| - 1];
      RunStopsAtError(step, before, line, shorter);
      assert all[..|all| - 1] == before + [line] + shorter;
    }
  }

  /** The parse fails with the error of line `i` when the lines before it succeed. */
  lemma RunFailsAt(step: LineStep, lines: seq<string>, i: nat)
    requires i < |lines| && Run(step, lines[..i]).Ok? && step(lines[i]).Err?
    ensures Run(step, lines) == Err(step(lines[i]).error)
  {
    RunStopsAtError(step, lines[..i], lines[i], lines[i + 1..]);
    Around(lines, i);
  }

  lemma Around<T>(s: seq<T>, i: nat)
    requires i < |s|
    ensures s[..i] + [s[i]] + s[i + 1..] == s
  {
  }

  /** A line that yields no record can be removed anywhere without changing the outcome. */
  lemma {:induction false} RunDropsNoRecord(step: LineStep, before: seq<string>, line: string, after: seq<string>)
    requires step(line) == Ok(NoRecord)
    ensures Run(step, before + [line] + after) == Run(step, before + after)
    decreases |after|
  {
    var all := before + [line] + after;
    if after == [] {
      assert all[..|all| - 1] == before;
      assert before + after == before;
    } else {
      var shorter := after[..|after| - 1];
      RunDropsNoRecord(step, before, line, shorter);
      assert all[..|all| - 1] == before + [line] + shorter;
      assert (before + after)[..|before + after| - 1] == before + shorter;
      assert all[|all| - 1] == (before + after)[|before + after| - 1];
    }
  }

  /** The three outcomes of one line's step, as the loop body meets them. */
  lemma StepCases(conv: Converter, line: string)
    ensures Skipped(line) ==> StepOf(conv)(line) == Ok(NoRecord)
    ensures !Skipped(line) && ConvertAll(conv, Split(LineFields(Strip(line)))).Err?
            ==> StepOf(conv)(line) == Err(ConvertAll(conv, Split(LineFields(Strip(line)))).error)
    ensures !Skipped(line) && ConvertAll(conv, Split(LineFields(Strip(line)))).Ok?
            ==> (StepOf(conv)(line)
                 == Dispatch(LineCode(Strip(line)), ConvertAll(conv, Split(LineFields(Strip(line)))).value))
  {
  }

  /** A blank or comment line, wherever it stands, has no effect on the parse. */
  lemma SkippedLineHasNoEffect(conv: Converter, before: seq<string>, line: string, after: seq<string>)
    requires Skipped(line)
    ensures SceneOf(conv, before + [line] + after) == SceneOf(conv, before + after)
  {
    StepCases(conv, line);
    RunDropsNoRecord(StepOf(conv), before, line, after);
  }

  /**
   * A line whose code is none of the seven and whose fields are all numbers
   * has no effect on the parse.
   */
  lemma UnknownCodeHasNoEffect(conv: Converter, before: seq<string>, line: string, after: seq<string>)
    requires !Skipped(line) && !KnownCode(LineCode(Strip(line)))
    requires ConvertAll(conv, Split(LineFields(Strip(line)))).Ok?
    ensures SceneOf(conv, before + [line] + after) == SceneOf(conv, before + after)
  {
    RunDropsNoRecord(StepOf(conv), before, line, after);
  }

  /**
   * The fields of every line that is not skipped are converted before the
   * code is looked at: a field that is not a number makes the parse fail,
   * whatever the code (known or not) and whatever follows.
   */
  lemma NonNumericFieldFails(conv: Converter, before: seq<string>, line: string, after: seq<string>, k: nat)
    requires !Skipped(line) && Run(StepOf(conv), before).Ok?
    requires var tokens := Split(LineFields(Strip(line)));
      k < |tokens| && conv(tokens[k]).None? && forall j :: 0 <= j < k ==> conv(tokens[j]).Some?
    ensures SceneOf(conv, before + [line] + after) == Err(BadFloat(Split(LineFields(Strip(line)))[k]))
  {
    var tokens := Split(LineFields(Strip(line)));
    var r := ConvertAll(conv, tokens);
    var m :| 0 <= m < |tokens| && r.error == BadFloat(tokens[m])
      && conv(tokens[m]).None? && forall j :: 0 <= j < m ==> conv(tokens[j]).Some?;
    assert m == k;
    RunStopsAtError(StepOf(conv), before, line, after);
  }

  /**
   * A line with a known code and numeric fields fails the parse exactly when
   * it has fewer fields than `MinFields(code)`, one more than the highest
   * index its branch reads.
   */
  lemma TooFewFieldsFails(conv: Converter, before: seq<string>, line: string, after: seq<string>)
    requires !Skipped(line) && Run(StepOf(conv), before).Ok? && KnownCode(LineCode(Strip(line)))
    requires ConvertAll(conv, Split(LineFields(Strip(line)))).Ok?
    ensures var code, v := LineCode(Strip(line)), ConvertAll(conv, Split(LineFields(Strip(line)))).value;
      Classify(conv, line).Err? <==> |v| < MinFields(code)
    ensures var code, v := LineCode(Strip(line)), ConvertAll(conv, Split(LineFields(Strip(line)))).value;
      |v| < MinFields(code) ==> SceneOf(conv, before + [line] + after) == Err(TooFewFields(code, |v|))
  {
    if Classify(conv, line).Err? {
      RunStopsAtError(StepOf(conv), before, line, after);
    }
  }

  // ---------------------------------------------------------------------
  // The reference description: the records the lines produce, and what the
  // parse keeps of them.

  /**
   * The record of every line, in order, or the error of the first line that
   * raises (all lines before it then produce records).
   */
  function Records(step: LineStep, lines: seq<string>): (r: Result<seq<Entry>, ParseError>)
    ensures r.Ok? ==> (|r.value| == |lines|
                       && forall k :: 0 <= k < |lines| ==> step(lines[k]) == Ok(r.value[k]))
    ensures r.Err? ==> (exists k :: 0 <= k < |lines| && step(lines[k]) == Err(r.error)
                          && forall j :: 0 <= j < k ==> step(lines[j]).Ok?)
    ensures r.Err? <==> exists k :: 0 <= k < |lines| && step(lines[k]).Err?
  {
    if lines == [] then Ok([])
    else
      var init := lines[..|lines| - 1];
      assert forall j :: 0 <= j < |init| ==> init[j] == lines[j];
      var prior := Records(step, init);
      if prior.Err? then
        ghost var k :| 0 <= k < |init| && step(init[k]) == Err(prior.error)
          && forall j :: 0 <= j < k ==> step(init[j]).Ok?;
        assert step(lines[k]) == Err(prior.error);
        Err(prior.error)
      else
        var e := step(lines[|lines| - 1]);
        if e.Err? then
          assert forall j :: 0 <= j < |init| ==> step(lines[j]).Ok?;
          Err(e.error)
        else
          assert forall j :: 0 <= j < |init| ==> step(lines[j]) == step(init[j]);
          Ok(prior.value + [e.value])
  }

  function PickCamera(e: Entry): Option<Camera> {
    if e.CameraRec? then Some(e.camera) else None
  }

  function PickSettings(e: Entry): Option<Settings> {
    if e.SettingsRec? then Some(e.settings) else None
  }

  function PickMaterial(e: Entry): Option<Material> {
    if e.MaterialRec? then Some(e.material) else None
  }

  function PickLight(e: Entry): Option<Light> {
    if e.LightRec? then Some(e.light) else None
  }

  function PickShape(e: Entry): Option<Shape> {
    if e.ShapeRec? then Some(e.shape) else None
  }

  /** The records `pick` accepts, in order. */
  function Collect<T>(es: seq<Entry>, pick: Entry -> Option<T>): (r: seq<T>)
    ensures |r| <= |es|
  {
    if es == [] then []
    else (if pick(es[0]).Some? then [pick(es[0]).value] else []) + Collect(es[1..], pick)
  }

  /** The last record `pick` accepts, if there is one. */
  function Latest<T>(es: seq<Entry>, pick: Entry -> Option<T>): (r: Option<T>)
    ensures r.None? <==> forall k :: 0 <= k < |es| ==> pick(es[k]).None?
    ensures r.Some? ==> (exists k :: 0 <= k < |es| && pick(es[k]) == r
                           && forall j :: k < j < |es| ==> pick(es[j]).None?)
  {
    if es == [] then None
    else
      var later := Latest(es[1..], pick);
      if later.Some? then
        ghost var k :| 0 <= k < |es| - 1 && pick(es[1..][k]) == later
          && forall j :: k < j < |es| - 1 ==> pick(es[1..][j]).None?;
        assert pick(es[k + 1]) == later && forall j :: k + 1 < j < |es| ==> pick(es[j]).None?;
        later
      else
        assert forall j :: 0 < j < |es| ==> pick(es[j]) == pick(es[1..][j - 1]);
        pick(es[0])
  }

  /** What the parse keeps of a list of records. */
  function Summary(es: seq<Entry>): State {
    State(Latest(es, PickCamera), Latest(es, PickSettings),
          Collect(es, PickMaterial), Collect(es, PickLight), Collect(es, PickShape))
  }

  lemma {:induction false} CollectSnoc<T>(es: seq<Entry>, e: Entry, pick: Entry -> Option<T>)
    ensures Collect(es + [e], pick)
         == Collect(es, pick) + (if pick(e).Some? then [pick(e).value] else [])
    decreases |es|
  {
    if es == [] {
      assert [e][1..] == [];
    } else {
      var head := if pick(es[0]).Some? then [pick(es[0]).value] else [];
      var last := if pick(e).Some? then [pick(e).value] else [];
      assert (es + [e])[0] == es[0] && (es + [e])[1..] == es[1..] + [e];
      CollectSnoc(es[1..], e, pick);
      calc {
        Collect(es + [e], pick);
        head + Collect(es[1..] + [e], pick);
        head + (Collect(es[1..], pick) + last);
        (head + Collect(es[1..], pick)) + last;
      }
    }
  }

  lemma {:induction false} LatestSnoc<T>(es: seq<Entry>, e: Entry, pick: Entry -> Option<T>)
    ensures Latest(es + [e], pick) == if pick(e).Some? then pick(e) else Latest(es, pick)
    decreases |es|
  {
    if es == [] {
      assert [e][1..] == [];
    } else {
      assert (es + [e])[1..] == es[1..] + [e];
      LatestSnoc(es[1..], e, pick);
    }
  }

  lemma ApplySummary(es: seq<Entry>, e: Entry)
    ensures Apply(Summary(es), e) == Summary(es + [e])
  {
    CollectSnoc(es, e, PickMaterial);
    CollectSnoc(es, e, PickLight);
    CollectSnoc(es, e, PickShape);
    LatestSnoc(es, e, PickCamera);
    LatestSnoc(es, e, PickSettings);
  }

  /**
   * The loop agrees with the reference description: it fails exactly when
   * some line raises, with the first such line's error; otherwise the lists
   * are the materials, lights and shapes of the lines in file order, and the
   * camera and settings are those of the last `cam` and `set` lines.
   */
  lemma {:induction false} RunMatchesRecords(step: LineStep, lines: seq<string>)
    ensures Run(step, lines).Ok? <==> Records(step, lines).Ok?
    ensures Records(step, lines).Ok? ==> Run(step, lines).value == Summary(Records(step, lines).value)
    ensures Records(step, lines).Err? ==> Run(step, lines).error == Records(step, lines).error
    decreases |lines|
  {
    if lines != [] {
      var init := lines[..|lines| - 1];
      RunMatchesRecords(step, init);
      if Records(step, init).Ok? && step(lines[|lines| - 1]).Ok? {
        ApplySummary(Records(step, init).value, step(lines[|lines| - 1]).value);
      }
    }
  }

  /**
   * The whole of `parse` (`SceneOf(conv, lines)` is
   * `SceneWith(StepOf(conv), lines)`): it succeeds exactly when no line
   * raises and there is at least one `cam` and one `set` line; the scene then holds the last
   * camera and settings and every material, light and shape in file order. A
   * parse without a `cam` line fails on `camera`, one with a `cam` but no
   * `set` line fails on `set_params`.
   */
  lemma SceneFromRecords(step: LineStep, lines: seq<string>)
    ensures SceneWith(step, lines).Ok? <==>
      (Records(step, lines).Ok?
       && (exists k :: 0 <= k < |lines| && Records(step, lines).value[k].CameraRec?)
       && (exists k :: 0 <= k < |lines| && Records(step, lines).value[k].SettingsRec?))
    ensures SceneWith(step, lines).Ok? ==>
      var es, scene := Records(step, lines).value, SceneWith(step, lines).value;
      Some(scene.camera) == Latest(es, PickCamera) && Some(scene.settings) == Latest(es, PickSettings)
      && scene.materials == Collect(es, PickMaterial) && scene.lights == Collect(es, PickLight)
      && scene.shapes == Collect(es, PickShape)
    ensures Records(step, lines).Err? ==> SceneWith(step, lines) == Err(Records(step, lines).error)
    ensures Records(step, lines).Ok?
            && (forall k :: 0 <= k < |lines| ==> !Records(step, lines).value[k].CameraRec?)
            ==> SceneWith(step, lines) == Err(Unbound("camera"))
    ensures Records(step, lines).Ok?
            && (exists k :: 0 <= k < |lines| && Records(step, lines).value[k].CameraRec?)
            && (forall k :: 0 <= k < |lines| ==> !Records(step, lines).value[k].SettingsRec?)
            ==> SceneWith(step, lines) == Err(Unbound("set_params"))
  {
    RunMatchesRecords(step, lines);
    if Records(step, lines).Ok? {
      var es := Records(step, lines).value;
      assert forall k :: 0 <= k < |es| ==> (PickCamera(es[k]).None? <==> !es[k].CameraRec?);
      assert forall k :: 0 <= k < |es| ==> (PickSettings(es[k]).None? <==> !es[k].SettingsRec?);
    }
  }
}
