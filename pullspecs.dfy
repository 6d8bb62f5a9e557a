/** Image pull specs and the replacement maps the bundle customizations of
    iib/workers/tasks/build_regenerate_bundle.py build from them.  `ImageName` and the
    CSV handling of the operator_manifest library are not part of this model: a pull
    spec is a record, a CSV is the sequence of pull specs it mentions, and replacing
    pull specs "everywhere" maps each of them through the replacement map. */
module PullSpecs {
  import opened Wrappers
  import opened Json
  import opened Text

  /** `ImageName`: registry, namespace, repository and tag (a digest is a tag
      "<algorithm>:<checksum>"). */
  datatype PullSpec = PullSpec(registry: Option<string>, namespace: Option<string>, repo: string, tag: string)

  /** The registry and label lookups and the string forms of pull specs, which go
      through foreign code or the network. */
  datatype Lookups = Lookups(
    resolve: PullSpec -> PullSpec,                                  // get_resolved_image
    labelsOf: PullSpec -> seq<(string, string)>,                     // get_image_labels
    format: (string, seq<(string, string)>) -> Option<string>,       // str.format(**labels), None on KeyError
    show: PullSpec -> string,                                        // ImageName.to_str
    parse: string -> PullSpec,                                       // ImageName.parse
    isBundle: string -> bool)                                        // _is_bundle_image

  /** An operator CSV: the pull specs it mentions, in document order, whether it has a
      `spec.relatedImages` section, and the rest of the document. */
  datatype CsvDoc = CsvDoc(pullspecs: seq<PullSpec>, hasRelatedImages: bool, data: Value)

  predicate Distinct<T(==)>(s: seq<T>) {
    forall i, j :: 0 <= i < j < |s| ==> s[i] != s[j]
  }

  /** The elements of `s` in order of first occurrence. */
  function Dedup(s: seq<PullSpec>): (d: seq<PullSpec>)
    ensures forall p :: p in d <==> p in s
    ensures Distinct(d)
  {
    if s == [] then []
    else
      var d := Dedup(s[..|s| - 1]);
      assert forall p :: p in s <==> p in s[..|s| - 1] || p == s[|s| - 1] by {
        assert s == s[..|s| - 1] + [s[|s| - 1]];
      }
      if s[|s| - 1] in d then d else d + [s[|s| - 1]]
  }

  /** Every pull spec of the CSVs, file by file. */
  function AllPullspecs(csvs: seq<CsvDoc>): seq<PullSpec> {
    if csvs == [] then [] else csvs[0].pullspecs + AllPullspecs(csvs[1..])
  }

  lemma {:induction false} AllPullspecsMembers(csvs: seq<CsvDoc>, p: PullSpec)
    ensures p in AllPullspecs(csvs) <==> exists k :: 0 <= k < |csvs| && p in csvs[k].pullspecs
  {
    if csvs != [] {
      AllPullspecsMembers(csvs[1..], p);
      if p in csvs[0].pullspecs {
        assert 0 < |csvs| && p in csvs[0].pullspecs;
      }
      if exists k :: 0 <= k < |csvs| && p in csvs[k].pullspecs {
        var k :| 0 <= k < |csvs| && p in csvs[k].pullspecs;
        if k > 0 {
          assert p in csvs[1..][k - 1].pullspecs;
        }
      }
    }
  }

  /** `bundle_metadata['found_pullspecs']` of `_get_bundle_metadata`: every pull spec of
      every CSV, once each.  The model iterates it in order of first occurrence. */
  function Found(csvs: seq<CsvDoc>): (found: seq<PullSpec>)
    ensures Distinct(found)
  {
    Dedup(AllPullspecs(csvs))
  }

  /** A pull spec is found exactly when some CSV mentions it. */
  lemma FoundMeaning(csvs: seq<CsvDoc>, p: PullSpec)
    ensures p in Found(csvs) <==> exists k :: 0 <= k < |csvs| && p in csvs[k].pullspecs
  {
    AllPullspecsMembers(csvs, p);
  }

  /** `replace_pullspecs_everywhere`: each pull spec that is a key of the map becomes its
      value. */
  function ReplaceAll(pullspecs: seq<PullSpec>, replacements: map<PullSpec, PullSpec>): (r: seq<PullSpec>)
    ensures |r| == |pullspecs|
    ensures forall k :: 0 <= k < |r| ==>
      r[k] == if pullspecs[k] in replacements then replacements[pullspecs[k]] else pullspecs[k]
  {
    seq(|pullspecs|, k requires 0 <= k < |pullspecs| =>
      if pullspecs[k] in replacements then replacements[pullspecs[k]] else pullspecs[k])
  }

  /** One CSV after `_replace_csv_pullspecs`: its pull specs replaced, and a
      `relatedImages` section set when it had none. */
  function ReplaceInCsv(csv: CsvDoc, replacements: map<PullSpec, PullSpec>): (r: CsvDoc)
    ensures r.pullspecs == ReplaceAll(csv.pullspecs, replacements) && r.hasRelatedImages && r.data == csv.data
  {
    CsvDoc(ReplaceAll(csv.pullspecs, replacements), true, csv.data)
  }

  /** `_replace_csv_pullspecs` over every CSV of the bundle. */
  function ReplaceInCsvs(csvs: seq<CsvDoc>, replacements: map<PullSpec, PullSpec>): (r: seq<CsvDoc>)
    ensures |r| == |csvs| && forall k :: 0 <= k < |csvs| ==> r[k] == ReplaceInCsv(csvs[k], replacements)
  {
    seq(|csvs|, k requires 0 <= k < |csvs| => ReplaceInCsv(csvs[k], replacements))
  }

  /** The replacement map a loop over `found` builds when `rewrite` says what each pull
      spec becomes (None: left alone). */
  function Rewrites(found: seq<PullSpec>, rewrite: PullSpec -> Option<PullSpec>): map<PullSpec, PullSpec> {
    map p | p in found && rewrite(p).Some? :: rewrite(p).value
  }

  /** One more iteration of such a loop. */
  lemma RewritesStep(found: seq<PullSpec>, i: nat, rewrite: PullSpec -> Option<PullSpec>)
    requires i < |found|
    ensures Rewrites(found[..i + 1], rewrite) ==
      if rewrite(found[i]).Some? then Rewrites(found[..i], rewrite)[found[i] := rewrite(found[i]).value]
      else Rewrites(found[..i], rewrite)
  {
    assert found[..i + 1] == found[..i] + [found[i]];
  }

  /** The registry rewrite of `_apply_registry_replacements`: a pull spec whose registry
      maps to a non-empty replacement gets that registry. */
  function RegistryRewrite(replacements: map<string, string>, p: PullSpec): (r: Option<PullSpec>)
    ensures r.Some? <==> p.registry.Some? && p.registry.value in replacements && replacements[p.registry.value] != ""
    ensures r.Some? ==> r.value == p.(registry := Some(replacements[p.registry.value]))
  {
    if p.registry.Some? && p.registry.value in replacements && replacements[p.registry.value] != "" then
      Some(p.(registry := Some(replacements[p.registry.value])))
    else None
  }

  /** The loop of `_apply_registry_replacements` that builds `replacement_pullspecs`. */
  method RegistryReplacements(found: seq<PullSpec>, replacements: map<string, string>)
    returns (rep: map<PullSpec, PullSpec>)
    ensures rep == Rewrites(found, p => RegistryRewrite(replacements, p))
  {
    rep := map[];
    var i := 0;
    while i < |found|
      invariant 0 <= i <= |found|
      invariant rep == Rewrites(found[..i], p => RegistryRewrite(replacements, p))
    {
      RewritesStep(found, i, p => RegistryRewrite(replacements, p));
      var pullspec := found[i];
      var newRegistry := if pullspec.registry.Some? && pullspec.registry.value in replacements
                         then replacements[pullspec.registry.value] else "";
      if newRegistry != "" {
        rep := rep[pullspec := pullspec.(registry := Some(newRegistry))];
      }
      i := i + 1;
    }
    assert found[..i] == found;
  }

  /** Registry replacement touches only pull specs whose registry is mapped, and of
      those only the registry. */
  lemma RegistryReplacementOnlyChangesRegistry(found: seq<PullSpec>, replacements: map<string, string>, p: PullSpec)
    ensures var rep := Rewrites(found, q => RegistryRewrite(replacements, q));
      && (p in rep <==> p in found && p.registry.Some? && p.registry.value in replacements
                        && replacements[p.registry.value] != "")
      && (p in rep ==> rep[p].namespace == p.namespace && rep[p].repo == p.repo && rep[p].tag == p.tag
                       && rep[p].registry == Some(replacements[p.registry.value]))
  {
  }

  /** The rewrite of `_apply_repo_enclosure`: the repository split on "/", a non-empty
      namespace other than the target put in front, the parts joined with the glue and
      the namespace set to the target. */
  function EncloseRewrite(namespace: string, glue: string, p: PullSpec): (r: PullSpec)
    ensures r.registry == p.registry && r.tag == p.tag && r.namespace == Some(namespace)
    ensures p.namespace.Some? && p.namespace.value != "" && p.namespace.value != namespace ==>
      r.repo == Join(glue, [p.namespace.value] + Split(p.repo, '/'))
    ensures !(p.namespace.Some? && p.namespace.value != "" && p.namespace.value != namespace) ==>
      r.repo == Join(glue, Split(p.repo, '/'))
  {
    var parts := Split(p.repo, '/');
    var parts' := if p.namespace.Some? && p.namespace.value != "" && namespace != p.namespace.value
                  then [p.namespace.value] + parts else parts;
    p.(namespace := Some(namespace), repo := Join(glue, parts'))
  }

  /** The loop of `_apply_repo_enclosure`: every found pull spec is rewritten. */
  method EncloseReplacements(found: seq<PullSpec>, namespace: string, glue: string)
    returns (rep: map<PullSpec, PullSpec>)
    ensures rep == Rewrites(found, p => Some(EncloseRewrite(namespace, glue, p)))
  {
    rep := map[];
    var i := 0;
    while i < |found|
      invariant 0 <= i <= |found|
      invariant rep == Rewrites(found[..i], p => Some(EncloseRewrite(namespace, glue, p)))
    {
      RewritesStep(found, i, p => Some(EncloseRewrite(namespace, glue, p)));
      var pullspec := found[i];
      var repoParts := Split(pullspec.repo, '/');
      if pullspec.namespace.Some? && pullspec.namespace.value != "" && namespace != pullspec.namespace.value {
        repoParts := [pullspec.namespace.value] + repoParts;
      }
      rep := rep[pullspec := pullspec.(namespace := Some(namespace), repo := Join(glue, repoParts))];
      i := i + 1;
    }
    assert found[..i] == found;
  }

  /** With a glue and a namespace that have no "/", the enclosed repository is a single
      path component: the nested repository is flattened under the target namespace. */
  lemma EnclosedRepoIsFlat(namespace: string, glue: string, p: PullSpec)
    requires '/' !in glue
    requires p.namespace.Some? ==> '/' !in p.namespace.value
    ensures '/' !in EncloseRewrite(namespace, glue, p).repo
  {
    var parts := Split(p.repo, '/');
    if p.namespace.Some? && p.namespace.value != "" && p.namespace.value != namespace {
      var parts' := [p.namespace.value] + parts;
      assert forall k :: 0 <= k < |parts'| ==> '/' !in parts'[k] by {
        forall k | 0 <= k < |parts'| ensures '/' !in parts'[k] {
          if k > 0 { assert parts'[k] == parts[k - 1]; }
        }
      }
      JoinAvoids(glue, parts', '/');
    } else {
      JoinAvoids(glue, parts, '/');
    }
  }

  /** With "/" as the glue and the target namespace already in place, enclosing keeps
      the repository as it is. */
  lemma EncloseWithSlashKeepsRepo(namespace: string, p: PullSpec)
    requires p.namespace == Some(namespace) || p.namespace == Some("") || p.namespace.None?
    ensures EncloseRewrite(namespace, "/", p).repo == p.repo
  {
    JoinSplit(p.repo, '/');
  }

  /** The rewrite of `_resolve_image_pull_specs`: a pull spec whose tag has no ":" (not
      a digest) is pinned to the resolved image. */
  function ResolveRewrite(lk: Lookups, p: PullSpec): (r: Option<PullSpec>)
    ensures r.Some? <==> ':' !in p.tag
    ensures r.Some? ==> r.value == lk.resolve(p)
  {
    if ':' !in p.tag then Some(lk.resolve(p)) else None
  }

  /** Whether some found pull spec is not pinned yet, so that the pinned label is set. */
  predicate AnyUnpinned(found: seq<PullSpec>) {
    exists p :: p in found && ':' !in p.tag
  }

  /** The loop of `_resolve_image_pull_specs`, without IIB's own earlier pinning: the
      replacement map and whether `com.redhat.iib.pinned` was set. */
  method ResolveReplacements(found: seq<PullSpec>, lk: Lookups)
    returns (rep: map<PullSpec, PullSpec>, pinned: bool)
    ensures rep == Rewrites(found, p => ResolveRewrite(lk, p))
    ensures pinned <==> AnyUnpinned(found)
  {
    rep := map[];
    pinned := false;
    var i := 0;
    while i < |found|
      invariant 0 <= i <= |found|
      invariant rep == Rewrites(found[..i], p => ResolveRewrite(lk, p))
      invariant pinned <==> AnyUnpinned(found[..i])
    {
      RewritesStep(found, i, p => ResolveRewrite(lk, p));
      assert found[..i + 1] == found[..i] + [found[i]];
      var pullspec := found[i];
      var resolved := lk.resolve(pullspec);
      if ':' !in pullspec.tag {
        pinned := true;
        rep := rep[pullspec := resolved];
      }
      i := i + 1;
    }
    assert found[..i] == found;
  }

  /** The label that pins a bundle. */
  const PinnedLabel := "com.redhat.iib.pinned"

  /** A pull spec has to be rewritten exactly when the pinned label is set. */
  lemma PinnedLabelIffRewrites(found: seq<PullSpec>, lk: Lookups)
    ensures AnyUnpinned(found) <==> Rewrites(found, p => ResolveRewrite(lk, p)) != map[]
  {
    if AnyUnpinned(found) {
      var p :| p in found && ':' !in p.tag;
      assert p in Rewrites(found, q => ResolveRewrite(lk, q));
    }
  }

  /** `replacement_template.format(**labels).split('/', 1)`, with None in front when
      there is no "/": the namespace and repository of `_replace_image_name_from_labels`. */
  function NamespaceRepo(formatted: string): (r: (Option<string>, string))
    ensures '/' !in formatted ==> r == (None, formatted)
    ensures '/' in formatted ==> r.0.Some? && '/' !in r.0.value && r.0.value + "/" + r.1 == formatted
  {
    var parts := SplitOnce(formatted, '/');
    if |parts| == 1 then (None, parts[0]) else (Some(parts[0]), parts[1])
  }

  /** The IIBError naming the pull spec, the template and the labels it has. */
  function MissingLabelsError(lk: Lookups, template: string, p: PullSpec): Error {
    IIBError("Pull spec " + lk.show(p) + " is missing one or more label(s) required in the image_name_from_labels "
             + template + ". Available labels: " + Join(", ", LabelNames(lk.labelsOf(p))))
  }

  function LabelNames(labels: seq<(string, string)>): (names: seq<string>)
    ensures |names| == |labels| && forall k :: 0 <= k < |labels| ==> names[k] == labels[k].0
  {
    seq(|labels|, k requires 0 <= k < |labels| => labels[k].0)
  }

  /** The rewrite of `_replace_image_name_from_labels` for one pull spec. */
  function LabelsRewrite(lk: Lookups, template: string, p: PullSpec): (r: Result<PullSpec, Error>)
    ensures r.Failure? <==> lk.format(template, lk.labelsOf(p)).None?
    ensures r.Failure? ==> r.error == MissingLabelsError(lk, template, p)
    ensures r.Success? ==> var nr := NamespaceRepo(lk.format(template, lk.labelsOf(p)).value);
      r.value == p.(namespace := nr.0, repo := nr.1)
  {
    match lk.format(template, lk.labelsOf(p))
    case None => Failure(MissingLabelsError(lk, template, p))
    case Some(formatted) =>
      var nr := NamespaceRepo(formatted);
      Success(p.(namespace := nr.0, repo := nr.1))
  }

  /** The first found pull spec whose labels do not fill the template, or `|found|`. */
  function FirstUnlabelled(lk: Lookups, template: string, found: seq<PullSpec>): (k: nat)
    ensures k <= |found|
    ensures k < |found| ==> LabelsRewrite(lk, template, found[k]).Failure?
    ensures forall j :: 0 <= j < k ==> LabelsRewrite(lk, template, found[j]).Success?
  {
    if found == [] then 0
    else if LabelsRewrite(lk, template, found[0]).Failure? then 0
    else 1 + FirstUnlabelled(lk, template, found[1..])
  }

  lemma {:induction false} FirstUnlabelledAt(lk: Lookups, template: string, found: seq<PullSpec>, i: nat)
    requires i < |found| && LabelsRewrite(lk, template, found[i]).Failure?
    requires forall j :: 0 <= j < i ==> LabelsRewrite(lk, template, found[j]).Success?
    ensures FirstUnlabelled(lk, template, found) == i
  {
    if i > 0 {
      FirstUnlabelledAt(lk, template, found[1..], i - 1);
    }
  }

  /** The rewrite as a partial map, for `Rewrites`. */
  function LabelsRewriteOption(lk: Lookups, template: string, p: PullSpec): Option<PullSpec> {
    match LabelsRewrite(lk, template, p)
    case Success(q) => Some(q)
    case Failure(_) => None
  }

  /** The map `_replace_image_name_from_labels` builds, or the IIBError of the first pull
      spec that lacks a label. */
  function LabelsReplacements(lk: Lookups, template: string, found: seq<PullSpec>): (r: Result<map<PullSpec, PullSpec>, Error>)
    ensures r.Success? <==> forall p :: p in found ==> LabelsRewrite(lk, template, p).Success?
  {
    var k := FirstUnlabelled(lk, template, found);
    if k < |found| then Failure(MissingLabelsError(lk, template, found[k]))
    else
      assert forall p :: p in found ==> LabelsRewrite(lk, template, p).Success? by {
        forall p | p in found ensures LabelsRewrite(lk, template, p).Success? {
          var j :| 0 <= j < |found| && found[j] == p;
        }
      }
      Success(Rewrites(found, p => LabelsRewriteOption(lk, template, p)))
  }

  /** The loop of `_replace_image_name_from_labels`. */
  method LabelReplacements(found: seq<PullSpec>, lk: Lookups, template: string)
    returns (r: Result<map<PullSpec, PullSpec>, Error>)
    ensures r == LabelsReplacements(lk, template, found)
  {
    var rep := map[];
    var i := 0;
    while i < |found|
      invariant 0 <= i <= |found|
      invariant forall j :: 0 <= j < i ==> LabelsRewrite(lk, template, found[j]).Success?
      invariant rep == Rewrites(found[..i], p => LabelsRewriteOption(lk, template, p))
    {
      RewritesStep(found, i, p => LabelsRewriteOption(lk, template, p));
      var pullspec := found[i];
      var labels := lk.labelsOf(pullspec);
      var formatted := lk.format(template, labels);
      if formatted.None? {
        FirstUnlabelledAt(lk, template, found, i);
        return Failure(MissingLabelsError(lk, template, pullspec));
      }
      var (namespace, repo) := NamespaceRepo(formatted.value);
      rep := rep[pullspec := pullspec.(namespace := namespace, repo := repo)];
      i := i + 1;
    }
    assert found[..i] == found;
    r := Success(rep);
  }

  /** The split is at the first "/": a namespace without "/" in front of any repository
      (which may hold further slashes) is recovered exactly. */
  lemma NamespaceRepoSplitsAtFirstSlash(namespace: string, repo: string)
    requires '/' !in namespace
    ensures NamespaceRepo(namespace + "/" + repo) == (Some(namespace), repo)
  {
    var s := namespace + "/" + repo;
    FirstIndexOfAfterPrefix(namespace, repo, '/');
    assert s[..|namespace|] == namespace && s[|namespace| + 1..] == repo;
  }

  /** The related bundle images of `get_related_bundle_images`: the found pull specs, as
      strings, whose image is a bundle. */
  function RelatedBundleImages(lk: Lookups, found: seq<PullSpec>): (r: seq<string>)
    ensures forall s :: s in r <==> exists p :: p in found && lk.show(p) == s && lk.isBundle(s)
  {
    if found == [] then []
    else
      var rest := RelatedBundleImages(lk, found[1..]);
      assert forall p :: p in found <==> p == found[0] || p in found[1..] by {
        assert found == [found[0]] + found[1..];
      }
      if lk.isBundle(lk.show(found[0])) then [lk.show(found[0])] + rest else rest
  }

  /** `get_related_bundle_images` as the loop it is. */
  method GetRelatedBundleImages(lk: Lookups, found: seq<PullSpec>) returns (related: seq<string>)
    ensures related == RelatedBundleImages(lk, found)
  {
    related := [];
    var i := 0;
    while i < |found|
      invariant 0 <= i <= |found|
      invariant related + RelatedBundleImages(lk, found[i..]) == RelatedBundleImages(lk, found)
    {
      assert found[i..][1..] == found[i + 1..];
      var relatedPullspec := lk.show(found[i]);
      if lk.isBundle(relatedPullspec) {
        related := related + [relatedPullspec];
      }
      i := i + 1;
    }
  }

  /** The map of `perform_bundle_replacements`: each old pull spec that is a bundle image
      maps to the new one, a later entry for the same image winning. */
  function BundleReplacementMap(lk: Lookups, replacements: seq<(string, string)>): map<PullSpec, PullSpec>
    decreases |replacements|
  {
    if replacements == [] then map[]
    else
      var previous := BundleReplacementMap(lk, replacements[..|replacements| - 1]);
      var (original, rebuilt) := replacements[|replacements| - 1];
      if lk.isBundle(original) then previous[lk.parse(original) := lk.parse(rebuilt)] else previous
  }

  /** Only bundle images are replaced, each by the last replacement given for it. */
  lemma {:induction false} BundleReplacementsOnlyBundles(lk: Lookups, replacements: seq<(string, string)>, p: PullSpec)
    decreases |replacements|
    ensures p in BundleReplacementMap(lk, replacements) <==>
      exists k :: 0 <= k < |replacements| && lk.isBundle(replacements[k].0) && lk.parse(replacements[k].0) == p
  {
    if replacements != [] {
      var init := replacements[..|replacements| - 1];
      BundleReplacementsOnlyBundles(lk, init, p);
      if exists k :: 0 <= k < |init| && lk.isBundle(init[k].0) && lk.parse(init[k].0) == p {
        var k :| 0 <= k < |init| && lk.isBundle(init[k].0) && lk.parse(init[k].0) == p;
        assert replacements[k] == init[k];
      }
      if exists k :: 0 <= k < |replacements| && lk.isBundle(replacements[k].0) && lk.parse(replacements[k].0) == p {
        var k :| 0 <= k < |replacements| && lk.isBundle(replacements[k].0) && lk.parse(replacements[k].0) == p;
        if k < |init| {
          assert init[k] == replacements[k];
        }
      }
    }
  }
}
