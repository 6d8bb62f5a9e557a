/** The bundle's metadata/annotations.yaml and the CSV annotations of
    iib/workers/tasks/build_regenerate_bundle.py: the checks `_get_package_annotations`
    makes, the package name suffix, and the organization's CSV annotation templates.
    YAML parsing is not part of this model: a file is absent, unparsable, or a parsed
    document. */
module Annotations {
  import opened Wrappers
  import opened Json
  import opened Text

  datatype AnnotationsFile = Absent | Unparsable | Parsed(doc: Value)

  const PackageLabel := "operators.operatorframework.io.bundle.package.v1"

  const NoFile := "metadata/annotations.yaml does not exist in the bundle"
  const NotYaml := "metadata/annotations.yaml is not valid YAML"
  const NotDictionary := "The value of metadata/annotations.yaml must be a dictionary"
  const PackageNotSet := PackageLabel + " is not set in metadata/annotations.yaml"
  const PackageNotString := "The value of " + PackageLabel + " in metadata/annotations.yaml is not a string"

  /** `annotations_yaml.get('annotations', {})` */
  function AnnotationsOf(doc: Value): Value {
    match Get(doc, "annotations")
    case Some(v) => v
    case None => Object([])
  }

  /** `_get_package_annotations`: the document, once it has a non-empty string package
      name.  A document that is not a mapping has no `get` (AttributeError). */
  function PackageAnnotations(file: AnnotationsFile): (r: Result<Value, Error>)
    ensures file == Absent ==> r == Failure(IIBError(NoFile))
    ensures file == Unparsable ==> r == Failure(IIBError(NotYaml))
    ensures file.Parsed? && !file.doc.Object? ==> r == Failure(Crash("AttributeError"))
    ensures file.Parsed? && file.doc.Object? && !AnnotationsOf(file.doc).Object? ==> r == Failure(IIBError(NotDictionary))
    ensures file.Parsed? && file.doc.Object? && AnnotationsOf(file.doc).Object? ==>
      var package := GetOrNull(AnnotationsOf(file.doc), PackageLabel);
      && (!Truthy(package) ==> r == Failure(IIBError(PackageNotSet)))
      && (Truthy(package) && !package.Str? ==> r == Failure(IIBError(PackageNotString)))
    ensures r.Success? <==> file.Parsed? && ValidAnnotations(file.doc)
    ensures r.Success? ==> r.value == file.doc
  {
    match file
    case Absent => Failure(IIBError(NoFile))
    case Unparsable => Failure(IIBError(NotYaml))
    case Parsed(doc) =>
      if !doc.Object? then Failure(Crash("AttributeError"))
      else if !AnnotationsOf(doc).Object? then Failure(IIBError(NotDictionary))
      else
        var package := GetOrNull(AnnotationsOf(doc), PackageLabel);
        if !Truthy(package) then Failure(IIBError(PackageNotSet))
        else if !package.Str? then Failure(IIBError(PackageNotString))
        else Success(doc)
  }

  /** A document `_get_package_annotations` accepts. */
  predicate ValidAnnotations(doc: Value) {
    && doc.Object? && AnnotationsOf(doc).Object?
    && GetOrNull(AnnotationsOf(doc), PackageLabel).Str?
    && GetOrNull(AnnotationsOf(doc), PackageLabel).s != ""
  }

  /** `annotations_yaml['annotations'][package_label]` of an accepted document. */
  function PackageName(doc: Value): string
    requires ValidAnnotations(doc)
  {
    GetOrNull(AnnotationsOf(doc), PackageLabel).s
  }

  /** The document with the package name set. */
  function WithPackageName(doc: Value, name: string): (r: Value)
    requires ValidAnnotations(doc)
  {
    var annotations := AnnotationsOf(doc).fields;
    Object(Put(doc.fields, "annotations", Object(Put(annotations, PackageLabel, Str(name)))))
  }

  /** Setting a non-empty package name keeps the document valid, with that name. */
  lemma WithPackageNameValid(doc: Value, name: string)
    requires ValidAnnotations(doc) && name != ""
    ensures ValidAnnotations(WithPackageName(doc, name)) && PackageName(WithPackageName(doc, name)) == name
  {
    var annotations := AnnotationsOf(doc).fields;
    var inner := Put(annotations, PackageLabel, Str(name));
    assert Lookup(Put(doc.fields, "annotations", Object(inner)), "annotations") == Some(Object(inner));
  }

  /** The package name and labels `_apply_package_name_suffix` returns for a package name:
      unchanged with no labels when it already ends with the suffix, otherwise the
      suffixed name, which the package label is set to. */
  function SuffixedName(name: string, suffix: string): (r: (string, map<string, string>))
    ensures EndsWith(name, suffix) ==> r == (name, map[])
    ensures !EndsWith(name, suffix) ==> r == (name + suffix, map[PackageLabel := name + suffix])
    ensures EndsWith(r.0, suffix)
  {
    if EndsWith(name, suffix) then (name, map[])
    else
      AppendedEndsWith(name, suffix);
      (name + suffix, map[PackageLabel := name + suffix])
  }

  /** Applying the suffix twice is the same as applying it once: the second time finds
      the suffix in place and changes nothing. */
  lemma SuffixIdempotent(name: string, suffix: string)
    ensures SuffixedName(SuffixedName(name, suffix).0, suffix) == (SuffixedName(name, suffix).0, map[])
  {
  }

  /** The annotations file after `_apply_package_name_suffix`, and what it returns. */
  function ApplySuffix(file: AnnotationsFile, suffix: string): (r: Result<(AnnotationsFile, string, map<string, string>), Error>)
    ensures r.Failure? <==> PackageAnnotations(file).Failure?
    ensures r.Failure? ==> r.error == PackageAnnotations(file).error
    ensures r.Success? ==> var name := PackageName(file.doc);
      && (r.value.1, r.value.2) == SuffixedName(name, suffix)
      && r.value.0 == if EndsWith(name, suffix) then file else Parsed(WithPackageName(file.doc, name + suffix))
  {
    match PackageAnnotations(file)
    case Failure(e) => Failure(e)
    case Success(doc) =>
      var name := PackageName(doc);
      if EndsWith(name, suffix) then Success((file, name, map[]))
      else Success((Parsed(WithPackageName(doc, name + suffix)), name + suffix, map[PackageLabel := name + suffix]))
  }

  /** The suffix applied to a file that already carries it leaves the file alone and
      sets no label; so applying it twice leaves the file as applying it once. */
  lemma ApplySuffixTwice(file: AnnotationsFile, suffix: string)
    requires ApplySuffix(file, suffix).Success?
    ensures var once := ApplySuffix(file, suffix).value;
      && ApplySuffix(once.0, suffix).Success?
      && ApplySuffix(once.0, suffix).value == (once.0, once.1, map[])
  {
    var name := PackageName(file.doc);
    if !EndsWith(name, suffix) {
      WithPackageNameValid(file.doc, name + suffix);
      AppendedEndsWith(name, suffix);
    }
  }

  /** The CSV document after `setdefault('metadata', {}).setdefault('annotations', {})`
      and setting each configured annotation to its template formatted with the package
      name; `format` is `str.format(package_name=...)`, None on a KeyError.  A document or a
      `metadata` that is not a mapping has no `setdefault`; an `annotations` that is not a
      mapping fails only when the first template has been formatted and is assigned. */
  function AnnotateCsv(data: Value, packageName: string, templates: seq<(string, string)>,
                       format: (string, seq<(string, string)>) -> Option<string>): (r: Result<Value, Error>)
    ensures !data.Object? ==> r == Failure(Crash("AttributeError"))
    ensures data.Object? && Lookup(data.fields, "metadata").Some? && !Lookup(data.fields, "metadata").value.Object?
      ==> r == Failure(Crash("AttributeError"))
    ensures templates == [] && data.Object? && (Lookup(data.fields, "metadata").Some? ==> Lookup(data.fields, "metadata").value.Object?)
      ==> r.Success?
    ensures templates != [] && format(templates[0].1, [("package_name", packageName)]).None? && data.Object?
      && (Lookup(data.fields, "metadata").Some? ==> Lookup(data.fields, "metadata").value.Object?)
      ==> r == Failure(Crash("KeyError"))
    ensures templates != [] && format(templates[0].1, [("package_name", packageName)]).Some? && data.Object?
      && Lookup(data.fields, "metadata").Some? && Lookup(data.fields, "metadata").value.Object?
      && Lookup(Lookup(data.fields, "metadata").value.fields, "annotations").Some?
      && !Lookup(Lookup(data.fields, "metadata").value.fields, "annotations").value.Object?
      ==> r == Failure(Crash("TypeError"))
  {
    if !data.Object? then Failure(Crash("AttributeError"))
    else
      var metadata := match Lookup(data.fields, "metadata") case Some(m) => m case None => Object([]);
      if !metadata.Object? then Failure(Crash("AttributeError"))
      else
        var annotations := match Lookup(metadata.fields, "annotations") case Some(a) => a case None => Object([]);
        match SetAnnotations(annotations, packageName, templates, format)
        case Failure(e) => Failure(e)
        case Success(updated) =>
          Success(Object(Put(data.fields, "metadata", Object(Put(metadata.fields, "annotations", updated)))))
  }

  /** `for annotation, value_template in org_csv_annotations.items()` on one CSV: each
      template is formatted first, and then assigned, which needs a mapping. */
  function SetAnnotations(annotations: Value, packageName: string, templates: seq<(string, string)>,
                          format: (string, seq<(string, string)>) -> Option<string>): (r: Result<Value, Error>)
    decreases |templates|
  {
    if templates == [] then Success(annotations)
    else match format(templates[0].1, [("package_name", packageName)])
      case None => Failure(Crash("KeyError"))
      case Some(value) =>
        if !annotations.Object? then Failure(Crash("TypeError"))
        else SetAnnotations(Object(Put(annotations.fields, templates[0].0, Str(value))), packageName, templates[1..], format)
  }

  /** The value `SetAnnotations` gives a configured key: the last template for it,
      formatted. */
  function LastTemplate(templates: seq<(string, string)>, key: string): Option<string> {
    if templates == [] then None
    else if templates[|templates| - 1].0 == key then Some(templates[|templates| - 1].1)
    else LastTemplate(templates[..|templates| - 1], key)
  }

  /** With no templates the annotations are left as they are, whatever they hold; with
      some, they were a mapping and stay one, every configured key ends up set to its
      formatted template and the keys not configured keep their value. */
  lemma {:induction false} SetAnnotationsEffect(annotations: Value, packageName: string, templates: seq<(string, string)>,
                                                format: (string, seq<(string, string)>) -> Option<string>, key: string)
    requires SetAnnotations(annotations, packageName, templates, format).Success?
    decreases |templates|
    ensures templates == [] ==> SetAnnotations(annotations, packageName, templates, format).value == annotations
    ensures templates != [] ==> annotations.Object?
    ensures annotations.Object? ==>
      var r := SetAnnotations(annotations, packageName, templates, format).value;
      && r.Object?
      && match LastTemplate(templates, key)
         case None => Lookup(r.fields, key) == Lookup(annotations.fields, key)
         case Some(t) => format(t, [("package_name", packageName)]).Some?
                         && Lookup(r.fields, key) == Some(Str(format(t, [("package_name", packageName)]).value))
  {
    if templates != [] {
      var value := format(templates[0].1, [("package_name", packageName)]).value;
      var next := Object(Put(annotations.fields, templates[0].0, Str(value)));
      SetAnnotationsEffect(next, packageName, templates[1..], format, key);
      LastTemplateCons(templates, key);
    }
  }

  /** `LastTemplate` seen from the front: a later template for the key wins. */
  lemma {:induction false} LastTemplateCons(templates: seq<(string, string)>, key: string)
    requires templates != []
    decreases |templates|
    ensures LastTemplate(templates, key) ==
      if LastTemplate(templates[1..], key).Some? then LastTemplate(templates[1..], key)
      else if templates[0].0 == key then Some(templates[0].1) else None
  {
    if |templates| > 1 {
      var init := templates[..|templates| - 1];
      assert init[1..] == templates[1..][..|templates[1..]| - 1];
      assert templates[1..][|templates[1..]| - 1] == templates[|templates| - 1];
      if templates[|templates| - 1].0 != key {
        LastTemplateCons(init, key);
        assert init[0] == templates[0];
      }
    }
  }

  /** On a CSV, the configured annotations are set under `metadata.annotations`, the
      missing mappings on the way are created, the other annotations, the other keys of
      `metadata` and the other keys of the document keep their values; with no templates
      an existing `annotations` is kept whatever it holds. */
  lemma AnnotateCsvEffect(data: Value, packageName: string, templates: seq<(string, string)>,
                          format: (string, seq<(string, string)>) -> Option<string>, key: string)
    requires AnnotateCsv(data, packageName, templates, format).Success?
    ensures var r := AnnotateCsv(data, packageName, templates, format).value;
      && r.Object? && Get(r, "metadata").Some? && Get(r, "metadata").value.Object?
      && (forall other :: other != "metadata" ==> Lookup(r.fields, other) == Lookup(data.fields, other))
      && (forall other :: other != "annotations" ==>
            Get(Get(r, "metadata").value, other) == Get(GetOrNull(data, "metadata"), other))
      && var annotations := Get(Get(r, "metadata").value, "annotations");
      && annotations.Some?
      && (templates == [] ==>
            annotations.value == match Get(GetOrNull(data, "metadata"), "annotations") case Some(a) => a case None => Object([]))
      && (templates != [] ==>
            && annotations.value.Object?
            && match LastTemplate(templates, key)
               case None => Lookup(annotations.value.fields, key) ==
                 (match Get(GetOrNull(data, "metadata"), "annotations") case Some(a) => Get(a, key) case None => None)
               case Some(t) => format(t, [("package_name", packageName)]).Some?
                               && Lookup(annotations.value.fields, key) == Some(Str(format(t, [("package_name", packageName)]).value)))
  {
    var metadata := match Lookup(data.fields, "metadata") case Some(m) => m case None => Object([]);
    var current := match Lookup(metadata.fields, "annotations") case Some(a) => a case None => Object([]);
    SetAnnotationsEffect(current, packageName, templates, format, key);
  }

  /** An `annotations` entry that is null is not replaced by `setdefault`: with no templates
      the document is unchanged, and with templates the first unformattable one is reported
      as a KeyError before the assignment into null fails as a TypeError. */
  lemma NullAnnotationsFormatFirst(data: Value, packageName: string, templates: seq<(string, string)>,
                                   format: (string, seq<(string, string)>) -> Option<string>)
    requires data.Object? && Get(data, "metadata").Some? && Get(data, "metadata").value.Object?
    requires Get(Get(data, "metadata").value, "annotations") == Some(Null)
    ensures templates == [] ==> AnnotateCsv(data, packageName, templates, format) == Success(data)
    ensures templates != [] ==> AnnotateCsv(data, packageName, templates, format).Failure?
    ensures templates != [] && format(templates[0].1, [("package_name", packageName)]).None? ==>
      AnnotateCsv(data, packageName, templates, format).error == Crash("KeyError")
    ensures templates != [] && format(templates[0].1, [("package_name", packageName)]).Some? ==>
      AnnotateCsv(data, packageName, templates, format).error == Crash("TypeError")
  {
    var metadata := Get(data, "metadata").value;
    if templates == [] {
      PutExisting(metadata.fields, "annotations", Null);
      PutExisting(data.fields, "metadata", metadata);
    }
  }
}
