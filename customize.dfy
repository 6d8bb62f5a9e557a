/** `_adjust_operator_bundle` of iib/workers/tasks/build_regenerate_bundle.py: the
    organization's customizations applied in order to a bundle's CSVs and
    metadata/annotations.yaml.  `Step` and `Run` say what each customization and the
    whole list do; the `Bundle` class and `AdjustOperatorBundle` do it in place. */
module Customize {
  import opened Wrappers
  import opened Json
  import opened Text
  import opened PullSpecs
  import opened Annotations

  /** One entry of `iib_organization_customizations`, by its `type`; an optional key the
      entry lacks is the empty string, map or list. */
  datatype Customization =
    | ResolveImagePullspecs
    | RelatedBundles
    | PackageNameSuffix(suffix: string)
    | RegistryReplacements(replacements: map<string, string>)
    | PerformBundleReplacements
    | ImageNameFromLabels(template: string)
    | CsvAnnotations(annotations: seq<(string, string)>)
    | EncloseRepo(namespace: string, enclosureGlue: string)
    | Other(kind: string)

  /** The list applied for an organization with none configured. */
  const Defaults: seq<Customization> := [
    ResolveImagePullspecs, RelatedBundles, PackageNameSuffix(""), RegistryReplacements(map[]),
    PerformBundleReplacements, ImageNameFromLabels(""), CsvAnnotations([]), EncloseRepo("", "")]

  /** `conf['iib_organization_customizations'].get(organization, [])`, the defaults when
      that is empty. */
  function Plan(orgCustomizations: map<string, seq<Customization>>, organization: Option<string>): (plan: seq<Customization>)
    ensures organization.Some? && organization.value in orgCustomizations && orgCustomizations[organization.value] != [] ==>
      plan == orgCustomizations[organization.value]
    ensures organization.None? || organization.value !in orgCustomizations || orgCustomizations[organization.value] == [] ==>
      plan == Defaults
  {
    var configured := if organization.Some? && organization.value in orgCustomizations
                      then orgCustomizations[organization.value] else [];
    if configured == [] then Defaults else configured
  }

  /** The parameters of one `_adjust_operator_bundle` call. */
  datatype Job = Job(organization: Option<string>, pinnedByIib: bool, recursiveRelatedBundles: bool,
                     bundleReplacements: seq<(string, string)>, lk: Lookups)

  /** What a customization can change: the CSVs, the annotations file and the related
      bundle lists handed to `write_related_bundles_file`. */
  datatype BundleState = BundleState(csvs: seq<CsvDoc>, annotations: AnnotationsFile, relatedBundleFiles: seq<seq<string>>)

  /** The state of the customization loop: the bundle, `package_name`, `labels`, and
      whether the loop has returned early. */
  datatype Progress = Progress(bundle: BundleState, packageName: string, labels: map<string, string>, stopped: bool)

  /** `_adjust_csv_annotations` over every CSV, failing at the first CSV that fails. */
  function AnnotateAll(csvs: seq<CsvDoc>, packageName: string, templates: seq<(string, string)>,
                       format: (string, seq<(string, string)>) -> Option<string>): (r: Result<seq<CsvDoc>, Error>)
    ensures r.Success? ==> |r.value| == |csvs| && forall k :: 0 <= k < |csvs| ==>
      AnnotateCsv(csvs[k].data, packageName, templates, format) == Success(r.value[k].data)
      && r.value[k].pullspecs == csvs[k].pullspecs && r.value[k].hasRelatedImages == csvs[k].hasRelatedImages
    decreases |csvs|
  {
    if csvs == [] then Success([])
    else match AnnotateCsv(csvs[0].data, packageName, templates, format)
      case Failure(e) => Failure(e)
      case Success(data) =>
        match AnnotateAll(csvs[1..], packageName, templates, format)
        case Failure(e) => Failure(e)
        case Success(rest) => Success([csvs[0].(data := data)] + rest)
  }

  lemma {:induction false} AnnotateAllSucceeds(csvs: seq<CsvDoc>, out: seq<CsvDoc>, packageName: string,
                                              templates: seq<(string, string)>,
                                              format: (string, seq<(string, string)>) -> Option<string>)
    requires |out| == |csvs|
    requires forall k :: 0 <= k < |csvs| ==>
      AnnotateCsv(csvs[k].data, packageName, templates, format) == Success(out[k].data)
      && out[k] == csvs[k].(data := out[k].data)
    decreases |csvs|
    ensures AnnotateAll(csvs, packageName, templates, format) == Success(out)
  {
    if csvs != [] {
      AnnotateAllSucceeds(csvs[1..], out[1..], packageName, templates, format);
      assert out == [out[0]] + out[1..];
    }
  }

  lemma {:induction false} AnnotateAllFailsAt(csvs: seq<CsvDoc>, i: nat, packageName: string,
                                             templates: seq<(string, string)>,
                                             format: (string, seq<(string, string)>) -> Option<string>)
    requires i < |csvs| && AnnotateCsv(csvs[i].data, packageName, templates, format).Failure?
    requires forall k :: 0 <= k < i ==> AnnotateCsv(csvs[k].data, packageName, templates, format).Success?
    decreases i
    ensures AnnotateAll(csvs, packageName, templates, format)
         == Failure(AnnotateCsv(csvs[i].data, packageName, templates, format).error)
  {
    if i > 0 {
      AnnotateAllFailsAt(csvs[1..], i - 1, packageName, templates, format);
    }
  }

  /** The bundle with replaced pull specs in every CSV. */
  function Replaced(b: BundleState, rep: map<PullSpec, PullSpec>): BundleState {
    b.(csvs := ReplaceInCsvs(b.csvs, rep))
  }

  /** What one customization does. */
  function Step(c: Customization, p: Progress, job: Job): (r: Result<Progress, Error>)
    ensures r.Success? ==> r.value.stopped == (p.stopped || (c == RelatedBundles && job.recursiveRelatedBundles))
  {
    var found := Found(p.bundle.csvs);
    match c
    case PackageNameSuffix(suffix) =>
      if suffix == "" then Success(p)
      else (match ApplySuffix(p.bundle.annotations, suffix)
        case Failure(e) => Failure(e)
        case Success((file, name, packageLabels)) =>
          Success(p.(bundle := p.bundle.(annotations := file), packageName := name, labels := p.labels + packageLabels)))
    case RegistryReplacements(replacements) =>
      var rep := Rewrites(found, q => RegistryRewrite(replacements, q));
      if replacements == map[] || rep == map[] then Success(p) else Success(p.(bundle := Replaced(p.bundle, rep)))
    case CsvAnnotations(templates) =>
      if job.organization.None? || job.organization.value == "" || templates == [] then Success(p)
      else (match AnnotateAll(p.bundle.csvs, p.packageName, templates, job.lk.format)
        case Failure(e) => Failure(e)
        case Success(csvs) => Success(p.(bundle := p.bundle.(csvs := csvs))))
    case ImageNameFromLabels(template) =>
      if template == "" then Success(p)
      else (match LabelsReplacements(job.lk, template, found)
        case Failure(e) => Failure(e)
        case Success(rep) => Success(p.(bundle := Replaced(p.bundle, rep))))
    case EncloseRepo(namespace, glue) =>
      if namespace == "" || glue == "" then Success(p)
      else Success(p.(bundle := Replaced(p.bundle, Rewrites(found, q => Some(EncloseRewrite(namespace, glue, q))))))
    case RelatedBundles =>
      if job.recursiveRelatedBundles then Success(p.(stopped := true))
      else Success(p.(bundle := p.bundle.(relatedBundleFiles := p.bundle.relatedBundleFiles + [RelatedBundleImages(job.lk, found)])))
    case ResolveImagePullspecs =>
      if job.pinnedByIib then Success(p)
      else
        var rep := Rewrites(found, q => ResolveRewrite(job.lk, q));
        var labels := if AnyUnpinned(found) then p.labels[PinnedLabel := "true"] else p.labels;
        Success(p.(bundle := if rep == map[] then p.bundle else Replaced(p.bundle, rep), labels := labels))
    case PerformBundleReplacements =>
      if job.bundleReplacements == [] then Success(p)
      else Success(p.(bundle := Replaced(p.bundle, BundleReplacementMap(job.lk, job.bundleReplacements))))
    case Other(_) => Success(p)
  }

  /** The customizations run in list order until one fails or the loop returns early. */
  function Run(cs: seq<Customization>, p: Progress, job: Job): (r: Result<Progress, Error>)
    decreases |cs|
    ensures r.Success? && r.value.stopped ==> p.stopped || (RelatedBundles in cs && job.recursiveRelatedBundles)
    ensures r.Success? && !job.recursiveRelatedBundles ==> r.value.stopped == p.stopped
  {
    if cs == [] || p.stopped then Success(p)
    else match Step(cs[0], p, job)
      case Failure(e) => Failure(e)
      case Success(q) => Run(cs[1..], q, job)
  }

  /** Running two lists one after the other is running their concatenation: the
      customizations take effect in list order. */
  lemma {:induction false} RunAppend(cs1: seq<Customization>, cs2: seq<Customization>, p: Progress, job: Job)
    decreases |cs1|
    ensures Run(cs1 + cs2, p, job) ==
      match Run(cs1, p, job)
      case Failure(e) => Failure(e)
      case Success(q) => Run(cs2, q, job)
  {
    if cs1 == [] {
      assert cs1 + cs2 == cs2;
    } else if !p.stopped {
      assert (cs1 + cs2)[1..] == cs1[1..] + cs2;
      match Step(cs1[0], p, job)
      case Failure(e) =>
      case Success(q) => RunAppend(cs1[1..], cs2, q, job);
    }
  }

  /** In a recursive related bundles request the loop returns at the first
      `related_bundles` entry, with what the entries before it did and their labels;
      the entries after it never run. */
  lemma {:induction false} RecursiveStopsAtRelatedBundles(cs: seq<Customization>, k: nat, p: Progress, job: Job)
    requires job.recursiveRelatedBundles && !p.stopped
    requires k < |cs| && cs[k] == RelatedBundles
    requires forall j :: 0 <= j < k ==> cs[j] != RelatedBundles
    decreases k
    ensures Run(cs, p, job) ==
      match Run(cs[..k], p, job)
      case Failure(e) => Failure(e)
      case Success(q) => Success(q.(stopped := true))
  {
    if k == 0 {
      assert cs[..0] == [];
    } else {
      assert cs[..k][1..] == cs[1..][..k - 1];
      match Step(cs[0], p, job)
      case Failure(e) =>
      case Success(q) =>
        RecursiveStopsAtRelatedBundles(cs[1..], k - 1, q, job);
    }
  }

  /** CSV annotations apply only when an organization is given. */
  lemma CsvAnnotationsNeedOrganization(templates: seq<(string, string)>, p: Progress, job: Job)
    requires job.organization.None? || job.organization.value == ""
    ensures Step(CsvAnnotations(templates), p, job) == Success(p)
  {
  }

  /** A bundle IIB has already pinned is not resolved again and gets no pinned label. */
  lemma PinnedBundleNotResolved(p: Progress, job: Job)
    requires job.pinnedByIib
    ensures Step(ResolveImagePullspecs, p, job) == Success(p)
  {
  }

  /** Resolving sets the pinned label exactly when some pull spec had to be pinned, and
      then rewrites exactly those pull specs. */
  lemma ResolveSetsPinnedLabel(p: Progress, job: Job)
    requires !job.pinnedByIib
    ensures var r := Step(ResolveImagePullspecs, p, job);
      var found := Found(p.bundle.csvs);
      && r.Success?
      && (AnyUnpinned(found) ==> PinnedLabel in r.value.labels && r.value.labels[PinnedLabel] == "true")
      && (!AnyUnpinned(found) ==> r.value.labels == p.labels && r.value.bundle == p.bundle)
  {
    PinnedLabelIffRewrites(Found(p.bundle.csvs), job.lk);
  }

  /** The suffix step applied to its own outcome changes nothing more. */
  lemma SuffixStepIdempotent(suffix: string, p: Progress, job: Job)
    requires Step(PackageNameSuffix(suffix), p, job).Success?
    ensures var q := Step(PackageNameSuffix(suffix), p, job).value;
      Step(PackageNameSuffix(suffix), q, job) == Success(q)
  {
    if suffix != "" {
      ApplySuffixTwice(p.bundle.annotations, suffix);
      var q := Step(PackageNameSuffix(suffix), p, job).value;
      assert q.labels + map[] == q.labels;
    }
  }

  /** A package name suffix listed twice has the effect of listing it once. */
  lemma SuffixTwiceIsOnce(suffix: string, p: Progress, job: Job)
    requires !p.stopped
    ensures Run([PackageNameSuffix(suffix), PackageNameSuffix(suffix)], p, job) == Run([PackageNameSuffix(suffix)], p, job)
  {
    var once := Step(PackageNameSuffix(suffix), p, job);
    assert [PackageNameSuffix(suffix), PackageNameSuffix(suffix)][1..] == [PackageNameSuffix(suffix)];
    if once.Success? {
      SuffixStepIdempotent(suffix, p, job);
    }
  }

  /** With the default list in a recursive related bundles request, only the pull specs
      are resolved before the loop returns. */
  lemma DefaultsInRecursiveRequest(p: Progress, job: Job)
    requires job.recursiveRelatedBundles && !p.stopped
    ensures Run(Defaults, p, job) ==
      match Step(ResolveImagePullspecs, p, job)
      case Failure(e) => Failure(e)
      case Success(q) => Success(q.(stopped := true))
  {
    RecursiveStopsAtRelatedBundles(Defaults, 1, p, job);
    assert Defaults[..1] == [ResolveImagePullspecs];
  }

  /** The bundle being customized: its CSV files, its annotations file and the related
      bundle lists written for it. */
  class Bundle {
    var csvs: seq<CsvDoc>
    var annotations: AnnotationsFile
    var relatedBundleFiles: seq<seq<string>>

    function State(): BundleState
      reads this
    {
      BundleState(csvs, annotations, relatedBundleFiles)
    }

    constructor (csvs: seq<CsvDoc>, annotations: AnnotationsFile)
      ensures State() == BundleState(csvs, annotations, [])
    {
      this.csvs := csvs;
      this.annotations := annotations;
      relatedBundleFiles := [];
    }

    /** `_replace_csv_pullspecs`: every CSV gets its pull specs replaced and, when it has
        none, a `relatedImages` section. */
    method ReplaceCsvPullspecs(rep: map<PullSpec, PullSpec>)
      modifies this
      ensures State() == Replaced(old(State()), rep)
    {
      var i := 0;
      while i < |csvs|
        invariant 0 <= i <= |csvs| == |old(csvs)|
        invariant csvs[..i] == ReplaceInCsvs(old(csvs)[..i], rep) && csvs[i..] == old(csvs)[i..]
        invariant annotations == old(annotations) && relatedBundleFiles == old(relatedBundleFiles)
      {
        var csv := csvs[i];
        csv := csv.(pullspecs := ReplaceAll(csv.pullspecs, rep));
        if !csv.hasRelatedImages {
          csv := csv.(hasRelatedImages := true);
        }
        csvs := csvs[i := csv];
        assert csvs[i + 1..] == old(csvs)[i + 1..];
        i := i + 1;
      }
      assert old(csvs)[..i] == old(csvs);
    }

    /** The CSVs after annotating `before` stopped at position `i`: the earlier ones are
        annotated, the one at `i` fails, and it and the later ones are unchanged. */
    ghost predicate FailedAt(before: seq<CsvDoc>, after: seq<CsvDoc>, i: nat, packageName: string,
                             templates: seq<(string, string)>, format: (string, seq<(string, string)>) -> Option<string>)
    {
      && i < |before| == |after|
      && after[i..] == before[i..]
      && AnnotateCsv(before[i].data, packageName, templates, format).Failure?
      && forall k :: 0 <= k < i ==>
           AnnotateCsv(before[k].data, packageName, templates, format) == Success(after[k].data)
           && after[k] == before[k].(data := after[k].data)
    }

    /** `_adjust_csv_annotations(operator_manifest.files, package_name, annotations)`.
        On a failure the CSVs before the first failing one stay annotated and the others
        are as they were. */
    method AnnotateCsvs(packageName: string, templates: seq<(string, string)>,
                        format: (string, seq<(string, string)>) -> Option<string>)
      returns (r: Option<Error>)
      modifies this
      ensures match AnnotateAll(old(csvs), packageName, templates, format)
        case Failure(e) => r == Some(e)
        case Success(annotated) => r.None? && State() == old(State()).(csvs := annotated)
      ensures annotations == old(annotations) && relatedBundleFiles == old(relatedBundleFiles)
      ensures r.Some? ==> exists i :: 0 <= i < |old(csvs)| && FailedAt(old(csvs), csvs, i, packageName, templates, format)
    {
      var i := 0;
      while i < |csvs|
        invariant 0 <= i <= |csvs| == |old(csvs)|
        invariant csvs[i..] == old(csvs)[i..]
        invariant annotations == old(annotations) && relatedBundleFiles == old(relatedBundleFiles)
        invariant forall k :: 0 <= k < i ==>
          AnnotateCsv(old(csvs)[k].data, packageName, templates, format) == Success(csvs[k].data)
          && csvs[k] == old(csvs)[k].(data := csvs[k].data)
      {
        var data := SetCsvAnnotations(csvs[i].data, packageName, templates, format);
        if data.Failure? {
          AnnotateAllFailsAt(old(csvs), i, packageName, templates, format);
          assert FailedAt(old(csvs), csvs, i, packageName, templates, format);
          return Some(data.error);
        }
        csvs := csvs[i := csvs[i].(data := data.value)];
        assert csvs[i + 1..] == old(csvs)[i + 1..];
        i := i + 1;
      }
      AnnotateAllSucceeds(old(csvs), csvs, packageName, templates, format);
      r := None;
    }

    /** `write_related_bundles_file`: the list is recorded, not written. */
    method WriteRelatedBundles(related: seq<string>)
      modifies this
      ensures State() == old(State()).(relatedBundleFiles := old(relatedBundleFiles) + [related])
    {
      relatedBundleFiles := relatedBundleFiles + [related];
    }

    /** `_apply_package_name_suffix(metadata_path, suffix)` */
    method ApplyPackageNameSuffix(suffix: string) returns (r: Result<(string, map<string, string>), Error>)
      modifies this
      ensures match ApplySuffix(old(annotations), suffix)
        case Failure(e) => r == Failure(e) && State() == old(State())
        case Success((file, name, labels)) => r == Success((name, labels)) && State() == old(State()).(annotations := file)
    {
      var doc := PackageAnnotations(annotations);
      if doc.Failure? {
        return Failure(doc.error);
      }
      var packageAnnotation := PackageName(doc.value);
      if EndsWith(packageAnnotation, suffix) {
        return Success((packageAnnotation, map[]));
      }
      annotations := Parsed(WithPackageName(doc.value, packageAnnotation + suffix));
      r := Success((packageAnnotation + suffix, map[PackageLabel := packageAnnotation + suffix]));
    }
  }

  /** The nested `setdefault` calls and the loop over the templates on one CSV. */
  method SetCsvAnnotations(data: Value, packageName: string, templates: seq<(string, string)>,
                           format: (string, seq<(string, string)>) -> Option<string>)
    returns (r: Result<Value, Error>)
    ensures r == AnnotateCsv(data, packageName, templates, format)
  {
    if !data.Object? {
      return Failure(Crash("AttributeError"));
    }
    var metadata := match Lookup(data.fields, "metadata") case Some(m) => m case None => Object([]);
    if !metadata.Object? {
      return Failure(Crash("AttributeError"));
    }
    var current := match Lookup(metadata.fields, "annotations") case Some(a) => a case None => Object([]);
    var updated := SetEachAnnotation(current, packageName, templates, format);
    if updated.Failure? {
      return Failure(updated.error);
    }
    r := Success(Object(Put(data.fields, "metadata", Object(Put(metadata.fields, "annotations", updated.value)))));
  }

  /** `csv_annotations[annotation] = value_template.format(package_name=package_name)`
      for each configured annotation, in order. */
  method SetEachAnnotation(annotations: Value, packageName: string, templates: seq<(string, string)>,
                           format: (string, seq<(string, string)>) -> Option<string>)
    returns (r: Result<Value, Error>)
    ensures r == SetAnnotations(annotations, packageName, templates, format)
  {
    var csvAnnotations := annotations;
    var i := 0;
    while i < |templates|
      invariant 0 <= i <= |templates|
      invariant SetAnnotations(annotations, packageName, templates, format)
             == SetAnnotations(csvAnnotations, packageName, templates[i..], format)
    {
      assert templates[i..][1..] == templates[i + 1..];
      match format(templates[i].1, [("package_name", packageName)]) {
        case None => return Failure(Crash("KeyError"));
        case Some(value) =>
          if !csvAnnotations.Object? {
            return Failure(Crash("TypeError"));
          }
          csvAnnotations := Object(Put(csvAnnotations.fields, templates[i].0, Str(value)));
      }
      i := i + 1;
    }
    r := Success(csvAnnotations);
  }

  /** One pass of the customization loop, in place: the new package name, labels and
      whether the loop returns.  On a failure the bundle may be partly changed. */
  method ApplyCustomization(bundle: Bundle, c: Customization, packageName: string, labels: map<string, string>, job: Job)
    returns (r: Result<Progress, Error>)
    modifies bundle
    ensures r == Step(c, Progress(old(bundle.State()), packageName, labels, false), job)
    ensures r.Success? ==> bundle.State() == r.value.bundle
  {
    var p := Progress(bundle.State(), packageName, labels, false);
    match c {
      case PackageNameSuffix(suffix) =>
        if suffix == "" {
          return Success(p);
        }
        var suffixed := bundle.ApplyPackageNameSuffix(suffix);
        if suffixed.Failure? {
          return Failure(suffixed.error);
        }
        var (name, packageLabels) := suffixed.value;
        return Success(Progress(bundle.State(), name, labels + packageLabels, false));
      case RegistryReplacements(replacements) =>
        if replacements != map[] {
          var found := Found(bundle.csvs);
          var rep := PullSpecs.RegistryReplacements(found, replacements);
          if rep != map[] {
            bundle.ReplaceCsvPullspecs(rep);
          }
        }
        return Success(Progress(bundle.State(), packageName, labels, false));
      case CsvAnnotations(templates) =>
        if job.organization.Some? && job.organization.value != "" && templates != [] {
          var failure := bundle.AnnotateCsvs(packageName, templates, job.lk.format);
          if failure.Some? {
            return Failure(failure.value);
          }
        }
        return Success(Progress(bundle.State(), packageName, labels, false));
      case ImageNameFromLabels(template) =>
        if template != "" {
          var found := Found(bundle.csvs);
          var rep := LabelReplacements(found, job.lk, template);
          if rep.Failure? {
            return Failure(rep.error);
          }
          bundle.ReplaceCsvPullspecs(rep.value);
        }
        return Success(Progress(bundle.State(), packageName, labels, false));
      case EncloseRepo(namespace, glue) =>
        if namespace != "" && glue != "" {
          var found := Found(bundle.csvs);
          var rep := EncloseReplacements(found, namespace, glue);
          bundle.ReplaceCsvPullspecs(rep);
        }
        return Success(Progress(bundle.State(), packageName, labels, false));
      case RelatedBundles =>
        if job.recursiveRelatedBundles {
          return Success(Progress(bundle.State(), packageName, labels, true));
        }
        var found := Found(bundle.csvs);
        var related := GetRelatedBundleImages(job.lk, found);
        bundle.WriteRelatedBundles(related);
        return Success(Progress(bundle.State(), packageName, labels, false));
      case ResolveImagePullspecs =>
        var labels' := labels;
        if !job.pinnedByIib {
          var found := Found(bundle.csvs);
          var rep, pinned := ResolveReplacements(found, job.lk);
          if pinned {
            labels' := labels'[PinnedLabel := "true"];
          }
          if rep != map[] {
            bundle.ReplaceCsvPullspecs(rep);
          }
        }
        return Success(Progress(bundle.State(), packageName, labels', false));
      case PerformBundleReplacements =>
        if job.bundleReplacements != [] {
          bundle.ReplaceCsvPullspecs(BundleReplacementMap(job.lk, job.bundleReplacements));
        }
        return Success(Progress(bundle.State(), packageName, labels, false));
      case Other(_) =>
        return Success(p);
    }
  }

  /** `_adjust_operator_bundle`: the labels to set on the bundle, after the
      customizations changed it in place. */
  method AdjustOperatorBundle(bundle: Bundle, orgCustomizations: map<string, seq<Customization>>, job: Job)
    returns (r: Result<map<string, string>, Error>)
    modifies bundle
    ensures match PackageAnnotations(old(bundle.annotations))
      case Failure(e) => r == Failure(e) && bundle.State() == old(bundle.State())
      case Success(doc) =>
        match Run(Plan(orgCustomizations, job.organization), Progress(old(bundle.State()), PackageName(doc), map[], false), job)
        case Failure(e) => r == Failure(e)
        case Success(q) => r == Success(q.labels) && bundle.State() == q.bundle
  {
    var customizations := Plan(orgCustomizations, job.organization);
    var annotationsYaml := PackageAnnotations(bundle.annotations);
    if annotationsYaml.Failure? {
      return Failure(annotationsYaml.error);
    }
    var packageName := PackageName(annotationsYaml.value);
    var labels := map[];
    ghost var start := Progress(bundle.State(), packageName, labels, false);
    var i := 0;
    while i < |customizations|
      invariant 0 <= i <= |customizations|
      invariant Run(customizations[i..], Progress(bundle.State(), packageName, labels, false), job)
             == Run(customizations, start, job)
    {
      assert customizations[i..][1..] == customizations[i + 1..];
      var next := ApplyCustomization(bundle, customizations[i], packageName, labels, job);
      if next.Failure? {
        return Failure(next.error);
      }
      if next.value.stopped {
        return Success(labels);
      }
      packageName, labels := next.value.packageName, next.value.labels;
      i := i + 1;
    }
    r := Success(labels);
  }
}
