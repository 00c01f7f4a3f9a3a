/**
 * The rules of the thumbnail form: its default state, the validation run on submit, the
 * copy-with-override update of a top-level field or of a nested leaf named by a dotted path,
 * the clearing of a field's error, the live-mode auto-generation trigger and the reset.
 */
module ThumbnailForm {
  import opened Wrappers
  import opened JsValues
  import opened Text
  import ThumbnailService

  /** `formData`: the form's fields by name. */
  type Form = map<string, Value>

  /** `errors`: a message per field name; `""` once the field has been edited. */
  type Errors = map<string, string>

  /** The component's state: the form, its errors and whether the text-effects panel is open. */
  datatype FormState = FormState(form: Form, errors: Errors, showTextEffects: bool)

  // ---------------------------------------------------------------------------------------
  // The default form

  /** The four text-effect groups every fresh form starts with. */
  function DefaultTextEffects(): Value {
    Obj(map[
      "gradient" := Obj(map[
        "enabled" := Bool(false),
        "colors" := Arr([Str("#ffffff"), Str("#e5e5e5"), Str("#a855f7")]),
        "direction" := Str("to-br"),
        "type" := Str("linear")]),
      "shadow" := Obj(map[
        "enabled" := Bool(true),
        "blur" := Num(4.0),
        "offsetX" := Num(2.0),
        "offsetY" := Num(2.0),
        "color" := Str("#000000"),
        "opacity" := Num(0.7),
        "spread" := Num(0.0)]),
      "outline" := Obj(map[
        "enabled" := Bool(false),
        "width" := Num(2.0),
        "color" := Str("#ffffff"),
        "style" := Str("solid")]),
      "glow" := Obj(map[
        "enabled" := Bool(false),
        "color" := Str("#6366f1"),
        "intensity" := Num(0.5),
        "size" := Num(10.0)])
    ])
  }

  /** The state the form is created with. */
  function InitialForm(): (f: Form)
    ensures Prop(f, "title") == Str("") && Prop(f, "imageSize") == Str("youtube-thumbnail")
  {
    map[
      "description" := Str(""),
      "style" := Str(""),
      "colorScheme" := Str(""),
      "format" := Str("png"),
      "textPosition" := Obj(map["x" := Num(50.0), "y" := Num(50.0)]),
      "textEffects" := DefaultTextEffects(),
      "imageSize" := Str("youtube-thumbnail"),
      "title" := Str("")
    ]
  }

  /** A fresh form with no errors and the text-effects panel closed. */
  function InitialState(): FormState {
    FormState(InitialForm(), map[], false)
  }

  // ---------------------------------------------------------------------------------------
  // Validation

  /** The four fields a submission needs. */
  const RequiredFields: seq<string> := ["title", "style", "colorScheme", "imageSize"]

  /** The fixed message shown under a required field that is missing. */
  function RequiredMessage(field: string): string {
    if field == "title" then "Title is required"
    else if field == "style" then "Please select a style"
    else if field == "colorScheme" then "Please select a color scheme"
    else "Please select an image size"
  }

  /** `!formData[field]` for a required field, with the title trimmed first. */
  predicate Missing(form: Form, field: string)
    requires Prop(form, "title").Str?
  {
    if field == "title" then Trim(Prop(form, "title").s) == "" else !Truthy(Prop(form, field))
  }

  /** The form can be submitted: a title that is not all white space, and a style, colour scheme and size. */
  predicate IsComplete(form: Form)
    requires Prop(form, "title").Str?
  {
    Trim(Prop(form, "title").s) != ""
    && Truthy(Prop(form, "style"))
    && Truthy(Prop(form, "colorScheme"))
    && Truthy(Prop(form, "imageSize"))
  }

  /** `errors` holds exactly the fixed message of each missing field among `fields`. */
  ghost predicate ReportsMissing(errors: Errors, form: Form, fields: seq<string>)
    requires Prop(form, "title").Str?
  {
    (forall f :: f in errors <==> f in fields && Missing(form, f))
    && (forall f :: f in errors ==> errors[f] == RequiredMessage(f))
  }

  /** One conditional assignment of `validateForm`: the field's message when it is missing. */
  function NoteIfMissing(errors: Errors, form: Form, field: string): Errors
    requires Prop(form, "title").Str?
  {
    if Missing(form, field) then errors[field := RequiredMessage(field)] else errors
  }

  /**
   * The errors `validateForm` collects, one required field after the other: exactly the
   * missing required fields, each with its message, so none at all exactly when the form is
   * complete.
   */
  function CollectedErrors(form: Form): (errors: Errors)
    requires Prop(form, "title").Str?
    ensures ReportsMissing(errors, form, RequiredFields)
    ensures errors == map[] <==> IsComplete(form)
  {
    var fs := RequiredFields;
    var e0: Errors := map[];
    assert ReportsMissing(e0, form, fs[..0]);
    ReportOneMore(e0, form, 0);
    var e1 := NoteIfMissing(e0, form, fs[0]);
    ReportOneMore(e1, form, 1);
    var e2 := NoteIfMissing(e1, form, fs[1]);
    ReportOneMore(e2, form, 2);
    var e3 := NoteIfMissing(e2, form, fs[2]);
    ReportOneMore(e3, form, 3);
    assert fs[..4] == fs;
    var e4 := NoteIfMissing(e3, form, fs[3]);
    EmptyReportIffComplete(e4, form);
    e4
  }

  /** No required field is listed twice. */
  lemma RequiredFieldsDistinct(i: int, j: int)
    requires 0 <= i < j < |RequiredFields|
    ensures RequiredFields[i] != RequiredFields[j]
  {
    assert RequiredFields[0][0] == 't' && RequiredFields[1][0] == 's';
  }

  /** Checking the next required field extends the report by that field. */
  lemma ReportOneMore(errors: Errors, form: Form, n: nat)
    requires Prop(form, "title").Str?
    requires n < |RequiredFields| && ReportsMissing(errors, form, RequiredFields[..n])
    ensures ReportsMissing(NoteIfMissing(errors, form, RequiredFields[n]), form, RequiredFields[..n + 1])
  {
    assert RequiredFields[..n + 1] == RequiredFields[..n] + [RequiredFields[n]];
    forall i | 0 <= i < n ensures RequiredFields[i] != RequiredFields[n] {
      RequiredFieldsDistinct(i, n);
    }
  }

  /** With all four fields checked, the report is empty exactly when the form is complete. */
  lemma EmptyReportIffComplete(errors: Errors, form: Form)
    requires Prop(form, "title").Str?
    requires ReportsMissing(errors, form, RequiredFields)
    ensures errors == map[] <==> IsComplete(form)
  {
    if errors == map[] {
      MissingNoneOfFour(errors, form);
    } else {
      var f :| f in errors;
      MissingOneOfFour(form, f);
    }
  }

  /** The form is complete exactly when none of the required fields is missing. */
  lemma CompleteIffNoneMissing(form: Form)
    requires Prop(form, "title").Str?
    ensures IsComplete(form) <==> forall i :: 0 <= i < |RequiredFields| ==> !Missing(form, RequiredFields[i])
  {
    var fs := RequiredFields;
    if IsComplete(form) {
      forall i | 0 <= i < |fs| ensures !Missing(form, fs[i]) {
        assert i == 0 || i == 1 || i == 2 || i == 3;
      }
    } else if Missing(form, fs[0]) {
    } else if Missing(form, fs[1]) {
    } else if Missing(form, fs[2]) {
    } else {
      assert Missing(form, fs[3]);
    }
  }

  lemma MissingOneOfFour(form: Form, f: string)
    requires Prop(form, "title").Str?
    requires f in RequiredFields && Missing(form, f)
    ensures !IsComplete(form)
  {
    assert f == "title" || f == "style" || f == "colorScheme" || f == "imageSize";
  }

  lemma MissingNoneOfFour(errors: Errors, form: Form)
    requires Prop(form, "title").Str?
    requires ReportsMissing(errors, form, RequiredFields) && errors == map[]
    ensures IsComplete(form)
  {
    assert RequiredFields[0] !in errors && RequiredFields[1] !in errors;
    assert RequiredFields[2] !in errors && RequiredFields[3] !in errors;
  }

  /** The first check of `validateForm`: the trimmed title. */
  lemma NoteTitle(errors: Errors, form: Form)
    requires Prop(form, "title").Str?
    ensures NoteIfMissing(errors, form, RequiredFields[0]) ==
      if Trim(Prop(form, "title").s) == "" then errors["title" := "Title is required"] else errors
  {
  }

  /** The other three checks of `validateForm`: a falsy style, colour scheme or size. */
  lemma NoteSelection(errors: Errors, form: Form, n: nat, field: string, message: string)
    requires Prop(form, "title").Str?
    requires || (n == 1 && field == "style" && message == "Please select a style")
             || (n == 2 && field == "colorScheme" && message == "Please select a color scheme")
             || (n == 3 && field == "imageSize" && message == "Please select an image size")
    ensures NoteIfMissing(errors, form, RequiredFields[n]) ==
      if !Truthy(Prop(form, field)) then errors[field := message] else errors
  {
    assert RequiredFields[n] == field && field != "title";
    assert RequiredMessage(field) == message;
  }

  /**
   * `validateForm`: collects an error for each missing required field and reports whether
   * there were none. The title must be a string (`trim` is called on it).
   */
  method ValidateForm(form: Form) returns (valid: bool, errors: Errors)
    requires Prop(form, "title").Str?
    ensures errors == CollectedErrors(form)
    ensures valid <==> errors == map[]
    ensures valid <==> IsComplete(form)
  {
    var fs := RequiredFields;
    errors := map[];
    NoteTitle(errors, form);
    if Trim(Prop(form, "title").s) == "" {
      errors := errors["title" := "Title is required"];
    }
    ghost var e1 := errors;
    NoteSelection(e1, form, 1, "style", "Please select a style");
    if !Truthy(Prop(form, "style")) {
      errors := errors["style" := "Please select a style"];
    }
    ghost var e2 := errors;
    NoteSelection(e2, form, 2, "colorScheme", "Please select a color scheme");
    if !Truthy(Prop(form, "colorScheme")) {
      errors := errors["colorScheme" := "Please select a color scheme"];
    }
    ghost var e3 := errors;
    NoteSelection(e3, form, 3, "imageSize", "Please select an image size");
    if !Truthy(Prop(form, "imageSize")) {
      errors := errors["imageSize" := "Please select an image size"];
    }
    assert errors == CollectedErrors(form);
    valid := |errors| == 0;
  }

  /**
   * `handleSubmit`: validates, records the errors, and hands the form to the submit handler
   * only when it is complete.
   */
  method HandleSubmit(st: FormState) returns (next: FormState, submitted: Option<Form>)
    requires Prop(st.form, "title").Str?
    ensures submitted.Some? <==> IsComplete(st.form)
    ensures submitted.Some? ==> submitted.value == st.form && next.errors == map[]
    ensures next.form == st.form && next.showTextEffects == st.showTextEffects
    ensures next.errors == CollectedErrors(st.form)
  {
    var valid, errors := ValidateForm(st.form);
    next := st.(errors := errors);
    submitted := if valid then Some(st.form) else None;
  }

  /** A form whose required fields are all filled in validates with no errors. */
  lemma FilledFormIsValid(form: Form, title: string, style: string, colorScheme: string, imageSize: string)
    requires Prop(form, "title") == Str(title) && Trim(title) != ""
    requires Prop(form, "style") == Str(style) && style != ""
    requires Prop(form, "colorScheme") == Str(colorScheme) && colorScheme != ""
    requires Prop(form, "imageSize") == Str(imageSize) && imageSize != ""
    ensures IsComplete(form)
  {
  }

  /** The fresh form is not submittable: its title, style and colour scheme are empty. */
  lemma InitialFormIsIncomplete()
    ensures !IsComplete(InitialForm())
  {
    assert Trim("") == "";
  }

  // ---------------------------------------------------------------------------------------
  // Field updates

  /** The TypeError thrown by reading `child` of a `parent` that is `undefined` or `null`. */
  datatype FormError = NullishParent(parent: string, child: string)

  /** A third path segment that is present and not empty (a truthy `subchild`). */
  predicate Deep(subchild: Option<string>) {
    subchild.Some? && subchild.value != ""
  }

  /**
   * The new `prev[parent]` for the path `parent.child[.subchild]`: a copy of the old one with
   * `child` set to `value`, or, when there is a non-empty third segment, with `child` set to
   * a copy of `prev[parent][child]` whose `subchild` is `value`.
   */
  function NestedUpdate(parentValue: Value, parent: string, child: string, subchild: Option<string>,
                        value: Value): (r: Result<Value, FormError>)
    ensures r.Failure? <==> Deep(subchild) && Get(parentValue, child).None?
    ensures r.Success? ==> r.value.Obj?
    ensures r.Success? ==> forall k :: k != child ==> Prop(r.value.props, k) == Prop(Spread(parentValue), k)
    ensures r.Success? && !Deep(subchild) ==> Prop(r.value.props, child) == value
    ensures r.Success? && Deep(subchild) ==>
      var inner := Prop(r.value.props, child);
      inner.Obj? && Prop(inner.props, subchild.value) == value
      && forall k :: k != subchild.value ==> Prop(inner.props, k) == Prop(Spread(Get(parentValue, child).value), k)
  {
    if Deep(subchild) then
      match Get(parentValue, child)
      case None => Failure(NullishParent(parent, child))
      case Some(inner) => Success(Obj(Spread(parentValue)[child := Obj(Spread(inner)[subchild.value := value])]))
    else
      Success(Obj(Spread(parentValue)[child := value]))
  }

  /** The top-level field a (possibly dotted) field name changes: its first segment. */
  function TopField(field: string): string {
    Split(field, '.')[0]
  }

  /**
   * The state update of `handleInputChange`: `{ ...prev, [field]: value }` for a plain name,
   * and for a dotted one `[parent, child, subchild] = field.split('.')` with the nested copy
   * above (segments after the third are ignored).
   */
  function UpdateField(form: Form, field: string, value: Value): (r: Result<Form, FormError>)
    ensures r.Failure? ==> '.' in field
    ensures r.Success? ==> forall k :: k != TopField(field) ==> Prop(r.value, k) == Prop(form, k)
    ensures r.Success? ==> TopField(field) in r.value
  {
    if '.' !in field then Success(form[field := value])
    else
      var parts := Split(field, '.');
      var subchild := if |parts| >= 3 then Some(parts[2]) else None;
      match NestedUpdate(Prop(form, parts[0]), parts[0], parts[1], subchild, value)
      case Failure(e) => Failure(e)
      case Success(v) => Success(form[parts[0] := v])
  }

  /** A plain field name replaces just that field. */
  lemma UpdateTopLevel(form: Form, field: string, value: Value)
    requires '.' !in field
    ensures var r := UpdateField(form, field, value);
      r.Success? && Prop(r.value, field) == value
      && r.value.Keys == form.Keys + {field}
      && forall k :: k != field ==> Prop(r.value, k) == Prop(form, k)
  {
  }

  /** `parent.child` replaces that one nested value and copies its siblings at both levels. */
  lemma UpdateTwoLevels(form: Form, field: string, parent: string, child: string, value: Value)
    requires Split(field, '.') == [parent, child]
    ensures var r := UpdateField(form, field, value);
      r.Success? && Prop(r.value, parent).Obj?
      && Prop(Prop(r.value, parent).props, child) == value
      && (forall k :: k != child ==> Prop(Prop(r.value, parent).props, k) == Prop(Spread(Prop(form, parent)), k))
      && forall k :: k != parent ==> Prop(r.value, k) == Prop(form, k)
  {
  }

  /**
   * A path whose first three segments are `parent.child.subchild` (any further segments are
   * ignored) replaces one leaf and copies its siblings at all three levels; it throws exactly
   * when `prev[parent]` is `undefined` or `null`.
   */
  lemma UpdateThreeLevels(form: Form, field: string, parent: string, child: string, subchild: string,
                          value: Value)
    requires |Split(field, '.')| >= 3 && subchild != ""
    requires Split(field, '.')[..3] == [parent, child, subchild]
    ensures var r := UpdateField(form, field, value);
      && (r.Failure? <==> Get(Prop(form, parent), child).None?)
      && (r.Success? ==>
        var p := Prop(r.value, parent);
        var oldChild := Get(Prop(form, parent), child).value;
        p.Obj? && Prop(p.props, child).Obj?
        && Prop(Prop(p.props, child).props, subchild) == value
        && (forall k :: k != subchild ==> Prop(Prop(p.props, child).props, k) == Prop(Spread(oldChild), k))
        && (forall k :: k != child ==> Prop(p.props, k) == Prop(Spread(Prop(form, parent)), k))
        && forall k :: k != parent ==> Prop(r.value, k) == Prop(form, k))
  {
    var parts := Split(field, '.');
    assert parts[0] == parent && parts[1] == child && parts[2] == subchild;
  }

  /** A trailing dot (`parent.child.`) gives an empty third segment and acts like `parent.child`. */
  lemma UpdateTrailingDot(form: Form, field: string, shorter: string, parent: string, child: string, value: Value)
    requires Split(field, '.') == [parent, child, ""] && Split(shorter, '.') == [parent, child]
    ensures UpdateField(form, field, value) == UpdateField(form, shorter, value)
  {
  }

  /** Dot-free pieces joined by dots split back into those pieces, so the lemmas above apply to them. */
  lemma DottedPathSegments(parent: string, child: string, rest: seq<string>)
    requires '.' !in parent && '.' !in child
    requires forall k :: 0 <= k < |rest| ==> '.' !in rest[k]
    ensures Split(Join([parent, child] + rest, '.'), '.') == [parent, child] + rest
    ensures Join([parent, child], '.') == parent + "." + child
  {
    var parts := [parent, child] + rest;
    forall k | 0 <= k < |parts| ensures '.' !in parts[k] {
      if k >= 2 {
        assert parts[k] == rest[k - 2];
      }
    }
    SplitJoin(parts, '.');
    assert Join([parent, child], '.') == parent + ['.'] + Join([child], '.');
  }

  // ---------------------------------------------------------------------------------------
  // Errors, live mode and reset

  /** `if (errors[field]) setErrors({ ...prev, [field]: "" })`: a shown error is blanked, nothing else changes. */
  function ClearError(errors: Errors, field: string): (e: Errors)
    ensures e.Keys == errors.Keys
    ensures forall k :: k in e && k != field ==> e[k] == errors[k]
    ensures field in e ==> e[field] == ""
  {
    if field in errors && errors[field] != "" then errors[field := ""] else errors
  }

  /** Auto-generation fires in live mode, with a handler, for the title, the description or any text-effect field. */
  predicate ShouldAutoGenerate(liveMode: bool, hasHandler: bool, field: string)
    ensures ShouldAutoGenerate(liveMode, hasHandler, field) <==>
      liveMode && hasHandler && (field == "title" || field == "description" || exists k :: OccursAt(field, "textEffects", k))
  {
    ContainsIff(field, "textEffects");
    liveMode && hasHandler && (field == "title" || field == "description" || Contains(field, "textEffects"))
  }

  /** Every path under `textEffects` triggers auto-generation whenever live mode and the handler allow it. */
  lemma TextEffectPathsTrigger(liveMode: bool, hasHandler: bool, path: string)
    ensures ShouldAutoGenerate(liveMode, hasHandler, "textEffects." + path) <==> liveMode && hasHandler
  {
    var field := "textEffects." + path;
    assert field[..11] == "textEffects";
    ContainsAt(field, "textEffects", 0);
  }

  /** What a change hands back: the new state and, when auto-generation fires, its payload. */
  datatype Change = Change(state: FormState, autoGenerate: Option<Form>)

  /**
   * `handleInputChange`: the field update, the error blanking and the (debounced)
   * auto-generation, whose payload is the form with the same update applied.
   */
  function HandleInputChange(st: FormState, field: string, value: Value, liveMode: bool,
                             hasHandler: bool): (r: Result<Change, FormError>)
    ensures r.Failure? <==> UpdateField(st.form, field, value).Failure?
    ensures r.Success? ==> r.value.state.form == UpdateField(st.form, field, value).value
    ensures r.Success? ==> r.value.state.errors == ClearError(st.errors, field)
    ensures r.Success? ==> r.value.state.showTextEffects == st.showTextEffects
    ensures r.Success? ==> (r.value.autoGenerate.Some? <==> ShouldAutoGenerate(liveMode, hasHandler, field))
    ensures r.Success? && r.value.autoGenerate.Some? ==> r.value.autoGenerate.value == r.value.state.form
  {
    match UpdateField(st.form, field, value)
    case Failure(e) => Failure(e)
    case Success(form) =>
      var payload := if ShouldAutoGenerate(liveMode, hasHandler, field) then Some(form) else None;
      Success(Change(FormState(form, ClearError(st.errors, field), st.showTextEffects), payload))
  }

  /** The form literal `handleClear` sets, written out again in the component. */
  function ClearedForm(): Form {
    map[
      "title" := Str(""),
      "description" := Str(""),
      "style" := Str(""),
      "colorScheme" := Str(""),
      "format" := Str("png"),
      "imageSize" := Str("youtube-thumbnail"),
      "textPosition" := Obj(map["x" := Num(50.0), "y" := Num(50.0)]),
      "textEffects" := Obj(map[
        "gradient" := Obj(map[
          "enabled" := Bool(false),
          "colors" := Arr([Str("#ffffff"), Str("#e5e5e5"), Str("#a855f7")]),
          "direction" := Str("to-br"),
          "type" := Str("linear")]),
        "shadow" := Obj(map[
          "enabled" := Bool(true),
          "blur" := Num(4.0),
          "offsetX" := Num(2.0),
          "offsetY" := Num(2.0),
          "color" := Str("#000000"),
          "opacity" := Num(0.7),
          "spread" := Num(0.0)]),
        "outline" := Obj(map[
          "enabled" := Bool(false),
          "width" := Num(2.0),
          "color" := Str("#ffffff"),
          "style" := Str("solid")]),
        "glow" := Obj(map[
          "enabled" := Bool(false),
          "color" := Str("#6366f1"),
          "intensity" := Num(0.5),
          "size" := Num(10.0)])
      ])
    ]
  }

  /** The two literals agree: clearing gives exactly the form the component starts with. */
  lemma ClearedFormIsInitial()
    ensures ClearedForm() == InitialForm()
  {
  }

  /** `handleClear`: back to the initial form, no errors, the text-effects panel closed. */
  function HandleClear(st: FormState): (r: FormState)
    ensures r == InitialState()
  {
    ClearedFormIsInitial();
    FormState(ClearedForm(), map[], false)
  }

  // ---------------------------------------------------------------------------------------
  // Image-size options

  /** An entry of the image-size drop-down: the key it submits and the size it advertises. */
  datatype SizeOption = SizeOption(value: string, dimensions: ThumbnailService.Dimensions)

  const ImageSizeOptions: seq<SizeOption> := [
    SizeOption("youtube-thumbnail", ThumbnailService.Dimensions(1280, 720)),
    SizeOption("instagram-post", ThumbnailService.Dimensions(1080, 1080)),
    SizeOption("instagram-story", ThumbnailService.Dimensions(1080, 1920)),
    SizeOption("facebook-post", ThumbnailService.Dimensions(1200, 630)),
    SizeOption("facebook-cover", ThumbnailService.Dimensions(1640, 859)),
    SizeOption("twitter-post", ThumbnailService.Dimensions(1024, 512)),
    SizeOption("linkedin-post", ThumbnailService.Dimensions(1200, 627)),
    SizeOption("blog-header", ThumbnailService.Dimensions(1200, 600))
  ]

  /** Every size the form offers is generated at exactly the size its label advertises. */
  lemma ImageSizeOptionsMatchService(i: int)
    requires 0 <= i < |ImageSizeOptions|
    ensures ThumbnailService.DimensionsFor(ImageSizeOptions[i].value) == ImageSizeOptions[i].dimensions
  {
    ThumbnailService.DimensionTable("");
  }
}
