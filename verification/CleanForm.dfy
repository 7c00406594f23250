/**
  cleanForm and cleanStaticSelect (server/proxy/form.go): a greedy, left-to-right selection of the
  fields of a form and of the options of a static select.

  Each item gets a verdict: the problem it was dropped for, or None when it was kept.
 */
module CleanForms {
  import opened Wrappers
  import opened Strings
  import opened Bindings

  datatype Problem =
    | InvalidFormIcon | NoSubmitNorSource
    | FieldWithoutName | FieldNameBlank | FieldLabelBlank | FieldLabelRepeated | NoOptions | NoLookup
    | OptionWithoutLabel | OptionLabelRepeated | OptionValueRepeated
    | NoLocationNorLabel | TrimmedLocation | NotGranted | TrimmedLabel | CommandLabelBlank
    | InvalidIcon | NoChannelHeaderIcon | NotExactlyOne

  /** normalizeStaticPath for one configuration and app; None is its error. */
  type Normalizer = string -> Option<string>

  // ---------------------------------------------------------------- options

  function OptionLabel(o: SelectOption): string {
    if o.labelText == "" then o.value else o.labelText
  }

  predicate HasLabel(kept: seq<SelectOption>, l: string) {
    exists i :: 0 <= i < |kept| && OptionLabel(kept[i]) == l
  }

  predicate HasValue(kept: seq<SelectOption>, v: string) {
    exists i :: 0 <= i < |kept| && kept[i].value == v
  }

  function OptionVerdict(o: SelectOption, kept: seq<SelectOption>): Option<Problem> {
    if OptionLabel(o) == "" then Some(OptionWithoutLabel)
    else if HasLabel(kept, OptionLabel(o)) then Some(OptionLabelRepeated)
    else if HasValue(kept, o.value) then Some(OptionValueRepeated)
    else None
  }

  /** The kept options and the problems found, after the whole list. */
  function CleanOptions(opts: seq<SelectOption>): (r: (seq<SelectOption>, seq<Problem>)) {
    if opts == [] then ([], [])
    else
      var (kept, problems) := CleanOptions(opts[..|opts| - 1]);
      var o := opts[|opts| - 1];
      match OptionVerdict(o, kept)
      case None => (kept + [o], problems)
      case Some(p) => (kept, problems + [p])
  }

  function KeptOptions(opts: seq<SelectOption>): seq<SelectOption> {
    CleanOptions(opts).0
  }

  lemma OptionStep(opts: seq<SelectOption>, n: nat)
    requires n < |opts|
    ensures CleanOptions(opts[..n + 1]) ==
            var (kept, problems) := CleanOptions(opts[..n]);
            match OptionVerdict(opts[n], kept)
            case None => (kept + [opts[n]], problems)
            case Some(p) => (kept, problems + [p])
  {
    assert opts[..n + 1][..n] == opts[..n];
  }

  ghost predicate Used(labels: set<string>, values: set<string>, kept: seq<SelectOption>) {
    && (forall l :: l in labels <==> HasLabel(kept, l))
    && (forall v :: v in values <==> HasValue(kept, v))
  }

  lemma UsedAppend(labels: set<string>, values: set<string>, kept: seq<SelectOption>, o: SelectOption)
    requires Used(labels, values, kept)
    ensures Used(labels + {OptionLabel(o)}, values + {o.value}, kept + [o])
  {
    var r := kept + [o];
    assert r[|kept|] == o && forall i :: 0 <= i < |kept| ==> r[i] == kept[i];
    assert forall l :: HasLabel(r, l) <==> HasLabel(kept, l) || l == OptionLabel(o);
    assert forall v :: HasValue(r, v) <==> HasValue(kept, v) || v == o.value;
  }

  method CleanStaticSelect(f: Field) returns (r: Field, problems: seq<Problem>)
    ensures r == f.(options := KeptOptions(f.options))
    ensures problems == CleanOptions(f.options).1
  {
    problems := [];
    var usedLabels: set<string>, usedValues: set<string> := {}, {};
    var clean: seq<SelectOption> := [];
    for n := 0 to |f.options|
      invariant (clean, problems) == CleanOptions(f.options[..n])
      invariant Used(usedLabels, usedValues, clean)
    {
      OptionStep(f.options, n);
      var option := f.options[n];
      var text := option.labelText;
      if text == "" {
        text := option.value;
      }
      if text == "" {
        problems := problems + [OptionWithoutLabel];
        continue;
      }
      if text in usedLabels {
        problems := problems + [OptionLabelRepeated];
        continue;
      }
      if option.value in usedValues {
        problems := problems + [OptionValueRepeated];
        continue;
      }
      UsedAppend(usedLabels, usedValues, clean, option);
      usedLabels := usedLabels + {text};
      usedValues := usedValues + {option.value};
      clean := clean + [option];
    }
    assert f.options[..|f.options|] == f.options;
    r := f.(options := clean);
  }

  /** Labels are present, and no two options share a label or a value. */
  predicate OptionsClean(opts: seq<SelectOption>) {
    && (forall i :: 0 <= i < |opts| ==> OptionLabel(opts[i]) != "")
    && forall i, j :: 0 <= j < i < |opts| ==>
      OptionLabel(opts[j]) != OptionLabel(opts[i]) && opts[j].value != opts[i].value
  }

  lemma {:induction false} KeptOptionsClean(opts: seq<SelectOption>)
    ensures OptionsClean(KeptOptions(opts))
  {
    if opts != [] {
      KeptOptionsClean(opts[..|opts| - 1]);
    }
  }

  /**
    Option n is kept exactly when it has a label, its own or else its value, that no option kept before
    it has, and a value that none of them has.
   */
  lemma OptionKeptIff(opts: seq<SelectOption>, n: nat)
    requires n < |opts|
    ensures var o, text := opts[n], if opts[n].labelText == "" then opts[n].value else opts[n].labelText;
            KeptOptions(opts[..n + 1]) ==
            if && text != ""
               && forall k :: k in KeptOptions(opts[..n]) ==>
                 (if k.labelText == "" then k.value else k.labelText) != text && k.value != o.value
            then KeptOptions(opts[..n]) + [o]
            else KeptOptions(opts[..n])
  {
    assert opts[..n + 1][..n] == opts[..n];
  }

  /** Which problem an option is dropped for: the first that it has. */
  lemma OptionProblem(o: SelectOption, kept: seq<SelectOption>)
    ensures var text := if o.labelText == "" then o.value else o.labelText;
            var labelUsed := exists k :: k in kept && (if k.labelText == "" then k.value else k.labelText) == text;
            var valueUsed := exists k :: k in kept && k.value == o.value;
            && (OptionVerdict(o, kept) == Some(OptionWithoutLabel) <==> text == "")
            && (OptionVerdict(o, kept) == Some(OptionLabelRepeated) <==> text != "" && labelUsed)
            && (OptionVerdict(o, kept) == Some(OptionValueRepeated) <==> text != "" && !labelUsed && valueUsed)
  {
    assert HasLabel(kept, OptionLabel(o)) <==> exists k :: k in kept && OptionLabel(k) == OptionLabel(o);
    assert HasValue(kept, o.value) <==> exists k :: k in kept && k.value == o.value;
  }

  lemma {:induction false} CleanOptionsSilent(opts: seq<SelectOption>)
    requires CleanOptions(opts).1 == []
    ensures KeptOptions(opts) == opts
  {
    if opts != [] {
      CleanOptionsSilent(opts[..|opts| - 1]);
    }
  }

  lemma CleanPrefix(opts: seq<SelectOption>, n: nat)
    requires OptionsClean(opts) && n + 1 == |opts|
    ensures OptionsClean(opts[..n]) && OptionVerdict(opts[n], opts[..n]).None?
  {
  }

  lemma {:induction false} CleanOptionsKeepsClean(opts: seq<SelectOption>)
    requires OptionsClean(opts)
    ensures CleanOptions(opts) == (opts, [])
  {
    if opts != [] {
      var n := |opts| - 1;
      CleanPrefix(opts, n);
      CleanOptionsKeepsClean(opts[..n]);
      assert opts == opts[..n] + [opts[n]];
    }
  }

  /** Cleaning changes nothing, and reports nothing, exactly on clean options. */
  lemma CleanOptionsFixpoint(opts: seq<SelectOption>)
    ensures OptionsClean(opts) <==> KeptOptions(opts) == opts
    ensures OptionsClean(opts) <==> CleanOptions(opts).1 == []
  {
    KeptOptionsClean(opts);
    if OptionsClean(opts) {
      CleanOptionsKeepsClean(opts);
    }
    if CleanOptions(opts).1 == [] {
      CleanOptionsSilent(opts);
    }
  }

  // ---------------------------------------------------------------- fields

  function FieldLabel(f: Field): string {
    if f.labelText == "" then Dashed(f.name) else f.labelText
  }

  /** Usable after the options are cleaned. */
  predicate Selectable(f: Field) {
    match f.fieldType
    case StaticSelect => KeptOptions(f.options) != []
    case DynamicSelect => f.lookup.Some?
    case OtherField(_) => true
  }

  /** What the field becomes when it is kept. */
  function CleanField(f: Field): Field {
    f.(labelText := FieldLabel(f),
       options := if f.fieldType.StaticSelect? then KeptOptions(f.options) else f.options)
  }

  function FieldVerdict(f: Field, kept: seq<Field>): Option<Problem> {
    if f.name == "" then Some(FieldWithoutName)
    else if HasBlank(f.name) then Some(FieldNameBlank)
    else if HasBlank(FieldLabel(f)) then Some(FieldLabelBlank)
    else if exists i :: 0 <= i < |kept| && kept[i].labelText == FieldLabel(f) then Some(FieldLabelRepeated)
    else if f.fieldType.StaticSelect? && KeptOptions(f.options) == [] then Some(NoOptions)
    else if f.fieldType.DynamicSelect? && f.lookup.None? then Some(NoLookup)
    else None
  }

  /** The problems of the options are reported whenever the select is looked at. */
  function Report(problems: seq<Problem>, f: Field, kept: seq<Field>): seq<Problem> {
    if f.fieldType.StaticSelect? && (FieldVerdict(f, kept).None? || FieldVerdict(f, kept) == Some(NoOptions))
    then problems + CleanOptions(f.options).1 else problems
  }

  function CleanFields(fields: seq<Field>): (seq<Field>, seq<Problem>) {
    if fields == [] then ([], [])
    else
      var (kept, problems) := CleanFields(fields[..|fields| - 1]);
      var f := fields[|fields| - 1];
      var reported := Report(problems, f, kept);
      match FieldVerdict(f, kept)
      case None => (kept + [CleanField(f)], reported)
      case Some(p) => (kept, reported + [p])
  }

  function KeptFields(fields: seq<Field>): seq<Field> {
    CleanFields(fields).0
  }

  predicate SingleWords(f: Field) {
    f.name != "" && !HasBlank(f.name) && !HasBlank(FieldLabel(f))
  }

  predicate FieldsClean(fields: seq<Field>) {
    && (forall i :: 0 <= i < |fields| ==>
          SingleWords(fields[i]) && Selectable(fields[i]) && CleanField(fields[i]) == fields[i])
    && forall i, j :: 0 <= j < i < |fields| ==> fields[j].labelText != fields[i].labelText
  }

  /** One word: no space and no tab. */
  predicate OneWord(s: string) {
    forall i :: 0 <= i < |s| ==> s[i] != ' ' && s[i] != '\t'
  }

  /**
    Field n is kept exactly when its name and its label, its own or else its name with dashes, are
    single words, it can be used, and no field kept before it has its label. It keeps everything but a
    missing label and, in a static select, the options that are dropped.
   */
  lemma FieldKeptIff(fields: seq<Field>, n: nat)
    requires n < |fields|
    ensures var f, text := fields[n], if fields[n].labelText == "" then Dashed(fields[n].name) else fields[n].labelText;
            var options := if f.fieldType.StaticSelect? then KeptOptions(f.options) else f.options;
            KeptFields(fields[..n + 1]) ==
            if && f.name != "" && OneWord(f.name) && OneWord(text)
               && (f.fieldType.StaticSelect? ==> options != []) && (f.fieldType.DynamicSelect? ==> f.lookup.Some?)
               && forall k :: k in KeptFields(fields[..n]) ==> k.labelText != text
            then KeptFields(fields[..n]) + [Field(f.name, f.fieldType, text, f.description, options, f.lookup)]
            else KeptFields(fields[..n])
  {
    assert fields[..n + 1][..n] == fields[..n];
    OneWordIff(fields[n].name);
    OneWordIff(FieldLabel(fields[n]));
  }

  /** Which problem a field is dropped for: the first that it has. */
  lemma FieldProblem(f: Field, kept: seq<Field>)
    ensures var text, v := if f.labelText == "" then Dashed(f.name) else f.labelText, FieldVerdict(f, kept);
            var named, labelled := f.name != "" && OneWord(f.name), OneWord(text);
            var used := exists k :: k in kept && k.labelText == text;
            && (v == Some(FieldWithoutName) <==> f.name == "")
            && (v == Some(FieldNameBlank) <==> f.name != "" && !OneWord(f.name))
            && (v == Some(FieldLabelBlank) <==> named && !labelled)
            && (v == Some(FieldLabelRepeated) <==> named && labelled && used)
            && (v == Some(NoOptions) <==>
                named && labelled && !used && f.fieldType.StaticSelect? && KeptOptions(f.options) == [])
            && (v == Some(NoLookup) <==> named && labelled && !used && f.fieldType.DynamicSelect? && f.lookup.None?)
  {
    OneWordIff(f.name);
    OneWordIff(FieldLabel(f));
    assert (exists k :: k in kept && k.labelText == FieldLabel(f)) <==>
           exists i :: 0 <= i < |kept| && kept[i].labelText == FieldLabel(f);
  }

  lemma OneWordIff(s: string)
    ensures OneWord(s) <==> !HasBlank(s)
  {
  }

  lemma CleanFieldStable(f: Field)
    ensures SingleWords(f) ==> FieldLabel(f) != ""
    ensures f.name != "" ==> CleanField(CleanField(f)) == CleanField(f)
    ensures SingleWords(f) ==> SingleWords(CleanField(f))
    ensures Selectable(f) ==> Selectable(CleanField(f))
  {
    KeptOptionsClean(f.options);
    CleanOptionsFixpoint(KeptOptions(f.options));
    assert f.name != "" ==> |Dashed(f.name)| > 0;
  }

  lemma {:induction false} KeptFieldsClean(fields: seq<Field>)
    ensures FieldsClean(KeptFields(fields))
  {
    if fields != [] {
      var n := |fields| - 1;
      var kept := KeptFields(fields[..n]);
      KeptFieldsClean(fields[..n]);
      if FieldVerdict(fields[n], kept).None? {
        CleanFieldStable(fields[n]);
        var r := kept + [CleanField(fields[n])];
        assert forall i :: 0 <= i < |kept| ==> r[i] == kept[i];
      }
    }
  }

  lemma FieldsPrefix(fields: seq<Field>, n: nat)
    requires FieldsClean(fields) && n + 1 == |fields|
    ensures FieldsClean(fields[..n])
    ensures FieldVerdict(fields[n], fields[..n]).None? && CleanField(fields[n]) == fields[n]
  {
  }

  lemma {:induction false} CleanFieldsFixpoint(fields: seq<Field>)
    requires FieldsClean(fields)
    ensures KeptFields(fields) == fields
  {
    if fields != [] {
      var n := |fields| - 1;
      FieldsPrefix(fields, n);
      CleanFieldsFixpoint(fields[..n]);
      assert fields == fields[..n] + [fields[n]];
    }
  }

  /** Nothing is wrong with a field on its own. */
  predicate FieldSound(f: Field) {
    && f.name != "" && OneWord(f.name) && OneWord(if f.labelText == "" then Dashed(f.name) else f.labelText)
    && (f.fieldType.StaticSelect? ==> f.options != [] && OptionsClean(f.options))
    && (f.fieldType.DynamicSelect? ==> f.lookup.Some?)
  }

  predicate FieldsSound(fields: seq<Field>) {
    && (forall i :: 0 <= i < |fields| ==> FieldSound(fields[i]))
    && forall i, j :: 0 <= j < i < |fields| ==> FieldLabel(fields[j]) != FieldLabel(fields[i])
  }

  predicate TextIsNew(kept: seq<Field>, text: string) {
    forall i :: 0 <= i < |kept| ==> kept[i].labelText != text
  }

  lemma VerdictNoneIff(f: Field, kept: seq<Field>)
    ensures FieldVerdict(f, kept).None? <==>
            f.name != "" && OneWord(f.name) && OneWord(FieldLabel(f)) && TextIsNew(kept, FieldLabel(f)) && Selectable(f)
  {
    OneWordIff(f.name);
    OneWordIff(FieldLabel(f));
  }

  lemma SelectSilentIff(f: Field, kept: seq<Field>)
    requires FieldVerdict(f, kept).None?
    ensures Report([], f, kept) == [] <==> (f.fieldType.StaticSelect? ==> OptionsClean(f.options))
  {
    CleanOptionsFixpoint(f.options);
    assert [] + CleanOptions(f.options).1 == CleanOptions(f.options).1;
  }

  /** A field that is looked at after others without a problem adds none exactly if it is sound and its label is new. */
  lemma FieldSilentIff(f: Field, kept: seq<Field>)
    ensures FieldVerdict(f, kept).None? && Report([], f, kept) == [] <==>
            FieldSound(f) && TextIsNew(kept, FieldLabel(f))
  {
    VerdictNoneIff(f, kept);
    CleanOptionsFixpoint(f.options);
    if FieldVerdict(f, kept).None? {
      SelectSilentIff(f, kept);
    }
  }

  predicate KeptAll(kept: seq<Field>, fields: seq<Field>) {
    |kept| == |fields| && forall i :: 0 <= i < |fields| ==> kept[i] == CleanField(fields[i])
  }

  predicate LabelIsNew(fields: seq<Field>, f: Field) {
    forall j :: 0 <= j < |fields| ==> FieldLabel(fields[j]) != FieldLabel(f)
  }

  lemma SoundSnoc(fields: seq<Field>)
    requires fields != []
    ensures var front, f := fields[..|fields| - 1], fields[|fields| - 1];
            FieldsSound(fields) <==> FieldsSound(front) && FieldSound(f) && LabelIsNew(front, f)
  {
    var front := fields[..|fields| - 1];
    assert forall i :: 0 <= i < |front| ==> front[i] == fields[i];
  }

  lemma ReportEmpty(problems: seq<Problem>, f: Field, kept: seq<Field>)
    ensures Report(problems, f, kept) == [] <==> problems == [] && Report([], f, kept) == []
  {
    var more := CleanOptions(f.options).1;
    assert |problems + more| == |problems| + |more| && |[] + more| == |more|;
  }

  lemma StepSilent(fields: seq<Field>)
    requires fields != []
    ensures var front, f := CleanFields(fields[..|fields| - 1]), fields[|fields| - 1];
            && (CleanFields(fields).1 == [] <==>
                front.1 == [] && FieldVerdict(f, front.0).None? && Report([], f, front.0) == [])
            && (FieldVerdict(f, front.0).None? ==> CleanFields(fields).0 == front.0 + [CleanField(f)])
  {
    var front, f := CleanFields(fields[..|fields| - 1]), fields[|fields| - 1];
    ReportEmpty(front.1, f, front.0);
    var reported := Report(front.1, f, front.0);
    match FieldVerdict(f, front.0) {
      case None =>
        assert CleanFields(fields) == (front.0 + [CleanField(f)], reported);
      case Some(p) =>
        assert CleanFields(fields) == (front.0, reported + [p]);
        assert (reported + [p])[|reported|] == p;
    }
  }

  /** No field is reported exactly if all are sound and their labels differ; then all are kept. */
  lemma {:induction false} FieldsSilentIff(fields: seq<Field>)
    ensures CleanFields(fields).1 == [] <==> FieldsSound(fields)
    ensures FieldsSound(fields) ==> KeptAll(KeptFields(fields), fields)
  {
    if fields != [] {
      var front, f := fields[..|fields| - 1], fields[|fields| - 1];
      FieldsSilentIff(front);
      FieldSilentIff(f, KeptFields(front));
      SoundSnoc(fields);
      StepSilent(fields);
    }
  }

  // ---------------------------------------------------------------- forms

  function CleanIcon(icon: string, norm: Normalizer): string {
    if icon == "" then "" else match norm(icon) case Some(clean) => clean case None => ""
  }

  function FormProblems(f: Form, norm: Normalizer): seq<Problem> {
    (if f.icon != "" && norm(f.icon).None? then [InvalidFormIcon] else []) +
    (if f.submit.None? && f.source.None? then [NoSubmitNorSource] else [])
  }

  function CleanForm(f: Form, norm: Normalizer): (Form, seq<Problem>) {
    var (fields, problems) := CleanFields(f.fields);
    (f.(icon := CleanIcon(f.icon, norm), fields := fields), FormProblems(f, norm) + problems)
  }

  lemma FieldStep(fields: seq<Field>, n: nat)
    requires n < |fields|
    ensures CleanFields(fields[..n + 1]) ==
            var (kept, problems) := CleanFields(fields[..n]);
            var reported := Report(problems, fields[n], kept);
            match FieldVerdict(fields[n], kept)
            case None => (kept + [CleanField(fields[n])], reported)
            case Some(p) => (kept, reported + [p])
  {
    assert fields[..n + 1][..n] == fields[..n];
  }

  ghost predicate Labels(used: set<string>, fields: seq<Field>) {
    forall l :: l in used <==> exists i :: 0 <= i < |fields| && fields[i].labelText == l
  }

  lemma LabelsAppend(used: set<string>, fields: seq<Field>, f: Field)
    requires Labels(used, fields)
    ensures Labels(used + {f.labelText}, fields + [f])
  {
    var r := fields + [f];
    assert r[|fields|] == f && forall i :: 0 <= i < |fields| ==> r[i] == fields[i];
  }

  method CleanFieldsLoop(fields: seq<Field>) returns (out: seq<Field>, problems: seq<Problem>)
    ensures (out, problems) == CleanFields(fields)
  {
    out, problems := [], [];
    var usedLabels: set<string> := {};
    for n := 0 to |fields|
      invariant (out, problems) == CleanFields(fields[..n])
      invariant Labels(usedLabels, out)
    {
      FieldStep(fields, n);
      var f := fields[n];
      if f.name == "" {
        problems := problems + [FieldWithoutName];
        continue;
      }
      if HasBlank(f.name) {
        problems := problems + [FieldNameBlank];
        continue;
      }
      if f.labelText == "" {
        f := f.(labelText := Dashed(f.name));
      }
      if HasBlank(f.labelText) {
        problems := problems + [FieldLabelBlank];
        continue;
      }
      if f.labelText in usedLabels {
        problems := problems + [FieldLabelRepeated];
        continue;
      }
      match f.fieldType {
        case StaticSelect =>
          var clean, ee := CleanStaticSelect(f);
          problems := problems + ee;
          if |clean.options| == 0 {
            problems := problems + [NoOptions];
            continue;
          }
          f := clean;
        case DynamicSelect =>
          if f.lookup.None? {
            problems := problems + [NoLookup];
            continue;
          }
        case OtherField(_) =>
      }
      LabelsAppend(usedLabels, out, f);
      out := out + [f];
      usedLabels := usedLabels + {f.labelText};
    }
    assert fields[..|fields|] == fields;
  }

  method CleanFormLoop(input: Form, norm: Normalizer) returns (out: Form, problems: seq<Problem>)
    ensures (out, problems) == CleanForm(input, norm)
  {
    out := input.(fields := []);
    problems := [];
    if input.icon != "" {
      var icon := norm(input.icon);
      if icon.None? {
        problems := problems + [InvalidFormIcon];
        out := out.(icon := "");
      } else {
        out := out.(icon := icon.value);
      }
    }
    if input.submit.None? && input.source.None? {
      problems := problems + [NoSubmitNorSource];
    }
    assert problems == FormProblems(input, norm);
    var fields, fieldProblems := CleanFieldsLoop(input.fields);
    out := out.(fields := fields);
    problems := problems + fieldProblems;
  }

  /** What a cleaned form carries, and when nothing is reported. */
  lemma FormContents(f: Form, norm: Normalizer)
    ensures var (out, problems) := CleanForm(f, norm);
            && out.source == f.source && out.title == f.title && out.submit == f.submit
            && out.fields == KeptFields(f.fields)
            && (f.icon != "" && norm(f.icon).Some? ==> out.icon == norm(f.icon).value)
            && (f.icon == "" || norm(f.icon).None? ==> out.icon == "")
            && (problems == [] <==>
                && (f.icon == "" || norm(f.icon).Some?) && (f.submit.Some? || f.source.Some?)
                && FieldsSound(f.fields))
  {
    FieldsSilentIff(f.fields);
  }

  /** A normalised icon stays as it is when normalised again. */
  ghost predicate IconStable(norm: Normalizer) {
    forall s :: norm(s).Some? && norm(s).value != "" ==> norm(norm(s).value) == norm(s)
  }

  lemma CleanIconIdempotent(icon: string, norm: Normalizer)
    requires IconStable(norm)
    ensures CleanIcon(CleanIcon(icon, norm), norm) == CleanIcon(icon, norm)
  {
  }

  lemma CleanFormIdempotent(f: Form, norm: Normalizer)
    requires IconStable(norm)
    ensures CleanForm(CleanForm(f, norm).0, norm).0 == CleanForm(f, norm).0
  {
    CleanIconIdempotent(f.icon, norm);
    KeptFieldsClean(f.fields);
    CleanFieldsFixpoint(KeptFields(f.fields));
  }
}
