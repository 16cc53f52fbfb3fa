/**
 * The build scope analyzer: it reads the output of `git diff --name-only`,
 * groups the changed files by folder, decides which folders are apps (a
 * folder with an `app.yml`/`app.yaml` config or a bare `Dockerfile`) and
 * turns the apps that have a `Dockerfile` into a GitHub Actions build matrix.
 *
 * The effects of the original are inputs here: environment variables are an
 * `Env`, the git output is a string, the files under the root folder are a
 * set of relative paths, and the parsed YAML configs are a map.
 */
module BuildScope {
  import opened Wrappers
  import opened Text
  import opened Paths
  import opened Glob

  // ---------------------------------------------------------------------
  // Inputs

  /** The environment variables the analyzer reads; `None` means unset. */
  datatype Env = Env(
    eventName: Option<string>,   // GITHUB_EVENT_NAME
    baseRef: Option<string>,     // GITHUB_BASE_REF
    sha: Option<string>,         // GITHUB_SHA
    refName: Option<string>)     // GITHUB_REF_NAME

  /** One entry of a config's `template.containers` list. */
  datatype Container = Container(name: Option<string>)

  /**
   * What `yaml.safe_load` returns for a config file. `Mapping` is a dict with
   * its `name` and its `template.containers` list (an absent or non-list
   * `containers` is the empty list); `NotMapping` is any other document.
   */
  datatype ConfigDoc = Mapping(name: Option<string>, containers: seq<Container>) | NotMapping

  /** The error `should_include_path` raises. */
  datatype FilterError = BothPatternsSet

  /** The record `analyze_folder` returns for an app folder. */
  datatype AppInfo = AppInfo(
    path: string,
    appName: string,
    appConfig: Option<string>,
    dockerfile: Option<string>,
    changedFiles: seq<string>)

  /** One entry of the matrix's `include` list; `appConfig` is `None` when the key is absent. */
  datatype MatrixItem = MatrixItem(path: string, appName: string, dockerfile: string, appConfig: Option<string>)

  /** What `find_app_folders` returns. */
  datatype Analysis = Analysis(apps: map<Path, AppInfo>, deletedFolders: seq<string>, ref: string)

  /** What `generate_matrix_output` returns; `matrix` is the `include` list of the matrix. */
  datatype MatrixOutput = MatrixOutput(matrix: seq<MatrixItem>, deletedFolders: seq<string>, ref: string, hasChanges: bool)

  // ---------------------------------------------------------------------
  // Comparison ref

  /** A ref on the remote, as compared against for a pull request. */
  predicate IsRemoteRef(r: string) {
    |r| >= 7 && r[..7] == "origin/"
  }

  /**
   * The ref to diff against: the remote base branch (by default `main`) for a
   * pull request, the previous commit for every other event; an unset event
   * counts as `push`.
   */
  function ComparisonRef(env: Env): (r: string)
    ensures r != ""
    ensures IsRemoteRef(r) <==> env.eventName.GetOr("push") == "pull_request"
    ensures IsRemoteRef(r) ==> r[7..] == env.baseRef.GetOr("main")
    ensures !IsRemoteRef(r) ==> r == "HEAD~1"
  {
    if env.eventName.GetOr("push") == "pull_request" then "origin/" + env.baseRef.GetOr("main") else "HEAD~1"
  }

  // ---------------------------------------------------------------------
  // Diff parsing

  /** The paths of the non-empty lines among `lines`. */
  function PathsOf(lines: seq<string>): set<Path> {
    set line | line in lines && line != "" :: ParsePath(line)
  }

  /** The paths a `git diff --name-only` output names: one per non-empty line of the stripped text. */
  function PathSet(output: string): (ps: set<Path>)
    ensures forall p :: p in ps ==> p != []
    ensures (forall i :: 0 <= i < |output| ==> IsSpace(output[i])) ==> ps == {}
  {
    var stripped := Strip(output);
    assert (forall i :: 0 <= i < |output| ==> IsSpace(output[i])) ==> stripped == [];
    PathsOf(Lines(stripped))
  }

  /**
   * Every non-empty line gives a path, and every path is the parse of a
   * non-empty line, namely its own string form; empty lines give nothing and
   * repeated lines give one path.
   */
  lemma PathSetExact(output: string)
    ensures forall line :: line in Lines(Strip(output)) && line != "" ==> ParsePath(line) in PathSet(output)
    ensures forall p :: p in PathSet(output) ==>
              Str(p) in Lines(Strip(output)) && Str(p) != "" && ParsePath(Str(p)) == p
  {
    forall p | p in PathSet(output)
      ensures Str(p) in Lines(Strip(output)) && Str(p) != "" && ParsePath(Str(p)) == p
    {
      var line :| line in Lines(Strip(output)) && line != "" && ParsePath(line) == p;
      StrParsePath(line);
    }
  }

  /** One more line adds its path, if it is not empty. */
  lemma PathsOfSnoc(lines: seq<string>, line: string)
    ensures PathsOf(lines + [line]) == PathsOf(lines) + (if line != "" then {ParsePath(line)} else {})
  {
    var before, after := PathsOf(lines), PathsOf(lines + [line]);
    forall p | p in after ensures p in before || (line != "" && p == ParsePath(line)) {
      var l :| l in lines + [line] && l != "" && ParsePath(l) == p;
      if l != line {
        assert l in lines;
      }
    }
  }

  /** The line loop of `get_changed_files`: a set of paths from one diff output. */
  method CollectPaths(output: string) returns (paths: set<Path>)
    ensures paths == PathSet(output)
  {
    var lines := Lines(Strip(output));
    paths := {};
    for i := 0 to |lines|
      invariant paths == PathsOf(lines[..i])
    {
      var line := lines[i];
      assert lines[..i + 1] == lines[..i] + [line];
      PathsOfSnoc(lines[..i], line);
      if line != "" {
        paths := paths + {ParsePath(line)};
      }
    }
    assert lines[..|lines|] == lines;
  }

  /**
   * `get_changed_files`: the changed paths from the output of
   * `git diff --name-only <ref>` and the deleted paths from the output of
   * `git diff --diff-filter=D --name-only <ref>`.
   */
  method GetChangedFiles(nameOnly: string, deletedOnly: string) returns (changed: set<Path>, deleted: set<Path>)
    ensures changed == PathSet(nameOnly) && deleted == PathSet(deletedOnly)
    ensures forall p :: p in changed ==> Str(p) in Lines(Strip(nameOnly)) && ParsePath(Str(p)) == p
    ensures forall p :: p in deleted ==> Str(p) in Lines(Strip(deletedOnly)) && ParsePath(Str(p)) == p
  {
    changed := CollectPaths(nameOnly);
    deleted := CollectPaths(deletedOnly);
    PathSetExact(nameOnly);
    PathSetExact(deletedOnly);
  }

  // ---------------------------------------------------------------------
  // Path filter

  /**
   * `should_include_path`: setting both patterns is an error; otherwise a path
   * passes when it matches the include pattern (if set) and does not match
   * the exclude pattern (if set). An empty pattern is unset.
   */
  function ShouldIncludePath(path: Path, includePattern: string, excludePattern: string): (r: Result<bool, FilterError>)
    ensures r.Failure? <==> includePattern != "" && excludePattern != ""
    ensures r.Success? ==>
              (r.value <==> (includePattern == "" || Match(includePattern, Str(path))) && (excludePattern == "" || !Match(excludePattern, Str(path))))
  {
    if includePattern != "" && excludePattern != "" then Failure(BothPatternsSet)
    else if includePattern != "" then Success(Match(includePattern, Str(path)))
    else if excludePattern != "" then Success(!Match(excludePattern, Str(path)))
    else Success(true)
  }

  /** The filter lets `p` through. */
  predicate Accepted(p: Path, includePattern: string, excludePattern: string) {
    ShouldIncludePath(p, includePattern, excludePattern) == Success(true)
  }

  // ---------------------------------------------------------------------
  // Grouping

  /** The folders holding a path of `paths` that the filter lets through. */
  function FilteredParents(paths: set<Path>, includePattern: string, excludePattern: string): set<Path> {
    set p | p in paths && Accepted(p, includePattern, excludePattern) :: Parent(p)
  }

  /** The paths of `paths` that the filter lets through and that lie directly in `folder`. */
  function Group(paths: set<Path>, includePattern: string, excludePattern: string, folder: Path): set<Path> {
    set p | p in paths && Accepted(p, includePattern, excludePattern) && Parent(p) == folder
  }

  /** Checking one more path `p` adds its folder and extends its folder's group exactly when `p` passes. */
  lemma FilterStep(done: set<Path>, p: Path, includePattern: string, excludePattern: string)
    ensures FilteredParents(done + {p}, includePattern, excludePattern) ==
              FilteredParents(done, includePattern, excludePattern) + (if Accepted(p, includePattern, excludePattern) then {Parent(p)} else {})
    ensures forall f :: Group(done + {p}, includePattern, excludePattern, f) ==
              Group(done, includePattern, excludePattern, f) + (if Accepted(p, includePattern, excludePattern) && Parent(p) == f then {p} else {})
  {
  }

  /** `groups` maps each folder of `FilteredParents(paths, ...)`, and nothing else, to its group. */
  ghost predicate Grouped(groups: map<Path, set<Path>>, paths: set<Path>, includePattern: string, excludePattern: string) {
    && groups.Keys == FilteredParents(paths, includePattern, excludePattern)
    && forall f :: f in groups ==> groups[f] == Group(paths, includePattern, excludePattern, f)
  }

  /**
   * What an exact grouping holds: every passing path is in its folder's
   * group, every grouped path is a passing path of that folder, so a path
   * the filter drops is in no group, and no group is empty.
   */
  lemma GroupingExact(groups: map<Path, set<Path>>, paths: set<Path>, includePattern: string, excludePattern: string)
    requires Grouped(groups, paths, includePattern, excludePattern)
    ensures forall p :: p in paths && Accepted(p, includePattern, excludePattern) ==>
              Parent(p) in groups && p in groups[Parent(p)]
    ensures forall f, p :: f in groups && p in groups[f] ==>
              p in paths && Accepted(p, includePattern, excludePattern) && Parent(p) == f
    ensures forall f :: f in groups ==> groups[f] != {}
  {
    forall f | f in groups
      ensures groups[f] != {}
    {
      assert f in FilteredParents(paths, includePattern, excludePattern);
      var p :| p in paths && Accepted(p, includePattern, excludePattern) && Parent(p) == f;
      assert p in Group(paths, includePattern, excludePattern, f);
    }
  }

  /** `groups` with `p` added to the group of its folder. */
  function AddToGroup(groups: map<Path, set<Path>>, p: Path): (g: map<Path, set<Path>>)
    ensures g.Keys == groups.Keys + {Parent(p)}
    ensures forall f :: f in g ==> g[f] == (if f in groups then groups[f] else {}) + (if f == Parent(p) then {p} else {})
  {
    var folder := Parent(p);
    groups[folder := (if folder in groups then groups[folder] else {}) + {p}]
  }

  /** Grouping one more path keeps the map exact: `p` is added when it passes and skipped otherwise. */
  lemma GroupStep(groups: map<Path, set<Path>>, done: set<Path>, p: Path, includePattern: string, excludePattern: string)
    requires Grouped(groups, done, includePattern, excludePattern)
    ensures Grouped(if Accepted(p, includePattern, excludePattern) then AddToGroup(groups, p) else groups,
                    done + {p}, includePattern, excludePattern)
  {
    FilterStep(done, p, includePattern, excludePattern);
  }

  /**
   * The `changed_folders` loop of `find_app_folders`: the changed paths that
   * pass the filter, grouped by parent folder. The filter's error surfaces
   * at the first path checked, so only when there is a path.
   */
  method GroupByFolder(changed: set<Path>, includePattern: string, excludePattern: string)
    returns (r: Result<map<Path, set<Path>>, FilterError>)
    ensures r.Failure? <==> includePattern != "" && excludePattern != "" && changed != {}
    ensures r.Success? ==> r.value.Keys == FilteredParents(changed, includePattern, excludePattern)
    ensures r.Success? ==> forall f :: f in r.value ==> r.value[f] == Group(changed, includePattern, excludePattern, f)
    ensures r.Success? ==> forall f :: f in r.value ==> r.value[f] != {}
  {
    var groups: map<Path, set<Path>> := map[];
    var pending := changed;
    while pending != {}
      invariant pending <= changed
      invariant includePattern != "" && excludePattern != "" ==> pending == changed
      invariant Grouped(groups, changed - pending, includePattern, excludePattern)
      decreases pending
    {
      var p :| p in pending;
      var done := changed - pending;
      var ok :- ShouldIncludePath(p, includePattern, excludePattern);
      pending := pending - {p};
      assert changed - pending == done + {p};
      GroupStep(groups, done, p, includePattern, excludePattern);
      if ok {
        groups := AddToGroup(groups, p);
      }
    }
    GroupingExact(groups, changed, includePattern, excludePattern);
    r := Success(groups);
  }

  /** The `deleted_folders` loop of `find_app_folders`: the folders of the deleted paths that pass the filter. */
  method DeletedFolders(deleted: set<Path>, includePattern: string, excludePattern: string)
    returns (r: Result<set<Path>, FilterError>)
    ensures r.Failure? <==> includePattern != "" && excludePattern != "" && deleted != {}
    ensures r.Success? ==> r.value == FilteredParents(deleted, includePattern, excludePattern)
  {
    var folders: set<Path> := {};
    var pending := deleted;
    while pending != {}
      invariant pending <= deleted
      invariant includePattern != "" && excludePattern != "" ==> pending == deleted
      invariant folders == FilteredParents(deleted - pending, includePattern, excludePattern)
      decreases pending
    {
      var p :| p in pending;
      var done := deleted - pending;
      var ok :- ShouldIncludePath(p, includePattern, excludePattern);
      pending := pending - {p};
      assert deleted - pending == done + {p};
      FilterStep(done, p, includePattern, excludePattern);
      if ok {
        folders := folders + {Parent(p)};
      }
    }
    r := Success(folders);
  }

  /**
   * `xs` lists the string forms of the paths of `s`, one entry per path, in
   * some order: what `[str(f) for f in s]` gives for a set `s`.
   */
  ghost predicate ListsExactly(xs: seq<string>, s: set<Path>) {
    && |xs| == |s|
    && (forall p :: p in s ==> Str(p) in xs)
    && (forall i :: 0 <= i < |xs| ==> exists p :: p in s && Str(p) == xs[i])
  }

  /**
   * The string forms of the paths of `s` in set iteration order, which is
   * not specified. When the paths are canonical no string repeats.
   */
  method StrList(s: set<Path>) returns (xs: seq<string>)
    ensures ListsExactly(xs, s)
    ensures (forall p :: p in s ==> Canonical(p)) ==> forall i, j :: 0 <= i < j < |xs| ==> xs[i] != xs[j]
  {
    xs := [];
    var pending := s;
    ghost var canonical := forall p :: p in s ==> Canonical(p);
    ghost var listed: seq<Path> := [];
    while pending != {}
      invariant pending <= s
      invariant |xs| + |pending| == |s|
      invariant |listed| == |xs|
      invariant forall i :: 0 <= i < |xs| ==> listed[i] in s - pending && xs[i] == Str(listed[i])
      invariant forall p :: p in s - pending ==> Str(p) in xs
      invariant canonical ==> forall i, j :: 0 <= i < j < |xs| ==> xs[i] != xs[j]
      decreases pending
    {
      var p :| p in pending;
      if canonical {
        forall i | 0 <= i < |xs| ensures xs[i] != Str(p) {
          if xs[i] == Str(p) {
            StrInjective(p, listed[i]);
          }
        }
      }
      xs := xs + [Str(p)];
      listed := listed + [p];
      pending := pending - {p};
    }
    forall i | 0 <= i < |xs| ensures exists p :: p in s && Str(p) == xs[i] {
      assert listed[i] in s && Str(listed[i]) == xs[i];
    }
  }

  // ---------------------------------------------------------------------
  // Folder analysis

  /** The config file of `folder`: `app.yml` if it exists, else `app.yaml` if it exists. */
  function ConfigFile(files: set<Path>, folder: Path): (r: Option<Path>)
    ensures r.Some? <==> Child(folder, "app.yml") in files || Child(folder, "app.yaml") in files
    ensures r.Some? ==> r.value in files && Parent(r.value) == folder
    ensures Child(folder, "app.yml") in files ==> r == Some(Child(folder, "app.yml"))
    ensures r.Some? ==> Name(r.value) == "app.yml" || Name(r.value) == "app.yaml"
  {
    if Child(folder, "app.yml") in files then Some(Child(folder, "app.yml"))
    else if Child(folder, "app.yaml") in files then Some(Child(folder, "app.yaml"))
    else None
  }

  /** The parsed config at `config`, if there is one and it loaded. */
  function LoadConfig(docs: map<Path, ConfigDoc>, config: Option<Path>): (doc: Option<ConfigDoc>)
    ensures doc.Some? <==> config.Some? && config.value in docs
    ensures doc.Some? ==> doc.value == docs[config.value]
  {
    if config.Some? && config.value in docs then Some(docs[config.value]) else None
  }

  /** A folder is an app when it has a config file or a bare `Dockerfile`. */
  predicate IsApp(files: set<Path>, folder: Path)
    ensures IsApp(files, folder) <==>
              Child(folder, "app.yml") in files || Child(folder, "app.yaml") in files || Child(folder, "Dockerfile") in files
  {
    ConfigFile(files, folder).Some? || Child(folder, "Dockerfile") in files
  }

  /** A `Dockerfile.<suffix>` variant's file name. */
  predicate IsDockerfileVariant(name: string) {
    |name| >= 11 && name[..11] == "Dockerfile."
  }

  /** A folder whose only entries are `Dockerfile.<suffix>` variants is not an app. */
  lemma VariantsDoNotQualify(files: set<Path>, folder: Path)
    requires forall p :: p in files && p != [] && Parent(p) == folder ==> IsDockerfileVariant(Name(p))
    ensures !IsApp(files, folder)
  {
    assert !IsDockerfileVariant(Name(Child(folder, "Dockerfile")));
    assert !IsDockerfileVariant(Name(Child(folder, "app.yml")));
    assert !IsDockerfileVariant(Name(Child(folder, "app.yaml")));
  }

  /** A `Dockerfile.<suffix>` variant never decides whether a folder is an app. */
  lemma VariantNeverDecides(files: set<Path>, folder: Path, variant: Path)
    requires IsDockerfileVariant(Name(variant))
    ensures IsApp(files + {variant}, folder) <==> IsApp(files, folder)
  {
    assert !IsDockerfileVariant(Name(Child(folder, "Dockerfile")));
    assert !IsDockerfileVariant(Name(Child(folder, "app.yml")));
    assert !IsDockerfileVariant(Name(Child(folder, "app.yaml")));
  }

  /** A non-empty string, which is what Python's truth test on a name accepts. */
  predicate Truthy(name: Option<string>) {
    name.Some? && name.value != ""
  }

  /**
   * The app name: the config's `name` if truthy, else the first container's
   * `name` if truthy, else the folder's base name.
   */
  function AppName(config: Option<ConfigDoc>, folder: Path): (name: string)
    ensures config.Some? && config.value.Mapping? && Truthy(config.value.name) ==>
              name == config.value.name.value
    ensures config.Some? && config.value.Mapping? && !Truthy(config.value.name)
            && config.value.containers != [] && Truthy(config.value.containers[0].name) ==>
              name == config.value.containers[0].name.value
    ensures !(config.Some? && config.value.Mapping? &&
              (Truthy(config.value.name) || (config.value.containers != [] && Truthy(config.value.containers[0].name)))) ==>
              name == Name(folder)
    ensures name == "" ==> name == Name(folder)
  {
    match config
    case Some(Mapping(configName, containers)) =>
      if Truthy(configName) then configName.value
      else if containers != [] && Truthy(containers[0].name) then containers[0].name.value
      else Name(folder)
    case _ => Name(folder)
  }

  /** The string form of an optional path. */
  function StrOf(p: Option<Path>): (s: Option<string>)
    ensures s.Some? <==> p.Some?
    ensures p.Some? ==> s == Some(Str(p.value))
  {
    if p.Some? then Some(Str(p.value)) else None
  }

  /** `info` is the record `analyze_folder` builds for `folder` with the changed files `changed`. */
  ghost predicate Describes(info: AppInfo, files: set<Path>, docs: map<Path, ConfigDoc>, folder: Path, changed: set<Path>) {
    && info.path == Str(folder)
    && info.appName == AppName(LoadConfig(docs, ConfigFile(files, folder)), folder)
    && info.appConfig == StrOf(ConfigFile(files, folder))
    && info.dockerfile == (if Child(folder, "Dockerfile") in files then Some(Str(Child(folder, "Dockerfile"))) else None)
    && ListsExactly(info.changedFiles, changed)
  }

  /** The matrix entry for an app record that has a `Dockerfile`. */
  function ItemOf(info: AppInfo): (item: MatrixItem)
    requires info.dockerfile.Some?
    ensures info == AppInfo(item.path, item.appName, item.appConfig, Some(item.dockerfile), info.changedFiles)
  {
    MatrixItem(info.path, info.appName, info.dockerfile.value, info.appConfig)
  }

  /** `item` is the matrix entry of some app of `apps` that has a `Dockerfile`. */
  ghost predicate IsItemOf(apps: map<Path, AppInfo>, item: MatrixItem) {
    exists f :: f in apps && apps[f].dockerfile.Some? && item == ItemOf(apps[f])
  }

  /** The matrix entry for an app folder that has a bare `Dockerfile`. */
  ghost function ExpectedItem(files: set<Path>, docs: map<Path, ConfigDoc>, folder: Path): MatrixItem {
    MatrixItem(
      Str(folder),
      AppName(LoadConfig(docs, ConfigFile(files, folder)), folder),
      Str(Child(folder, "Dockerfile")),
      StrOf(ConfigFile(files, folder)))
  }

  /** A record that describes a folder with a `Dockerfile` gives that folder's matrix entry. */
  lemma ItemOfDescribed(info: AppInfo, files: set<Path>, docs: map<Path, ConfigDoc>, folder: Path, changed: set<Path>)
    requires Describes(info, files, docs, folder, changed)
    requires Child(folder, "Dockerfile") in files
    ensures info.dockerfile.Some? && ItemOf(info) == ExpectedItem(files, docs, folder)
  {
  }

  // ---------------------------------------------------------------------
  // Matrix assembly

  /**
   * The loop of `generate_matrix_output`: one matrix entry per app whose
   * record has a `Dockerfile`, in the apps' iteration order, which is not
   * specified; `order` names the folder of each entry.
   */
  method BuildMatrix(apps: map<Path, AppInfo>) returns (items: seq<MatrixItem>, ghost order: seq<Path>)
    ensures |items| == |order|
    ensures forall i :: 0 <= i < |order| ==>
              order[i] in apps && apps[order[i]].dockerfile.Some? && items[i] == ItemOf(apps[order[i]])
    ensures forall i, j :: 0 <= i < j < |order| ==> order[i] != order[j]
    ensures forall f :: f in apps && apps[f].dockerfile.Some? ==> f in order
    ensures forall i :: 0 <= i < |items| ==> IsItemOf(apps, items[i])
    ensures forall f :: f in apps && apps[f].dockerfile.Some? ==> ItemOf(apps[f]) in items
  {
    items, order := [], [];
    var pending := apps.Keys;
    while pending != {}
      invariant pending <= apps.Keys
      invariant |items| == |order|
      invariant forall i :: 0 <= i < |order| ==>
                  order[i] in apps && order[i] !in pending && apps[order[i]].dockerfile.Some? && items[i] == ItemOf(apps[order[i]])
      invariant forall i, j :: 0 <= i < j < |order| ==> order[i] != order[j]
      invariant forall f :: f in apps && f !in pending && apps[f].dockerfile.Some? ==> f in order
      decreases pending
    {
      var folder :| folder in pending;
      var info := apps[folder];
      if info.dockerfile.Some? {
        items := items + [ItemOf(info)];
        order := order + [folder];
      }
      pending := pending - {folder};
    }
    forall i | 0 <= i < |items|
      ensures IsItemOf(apps, items[i])
    {
      var f := order[i];
      assert f in apps && apps[f].dockerfile.Some? && items[i] == ItemOf(apps[f]);
    }
    forall f | f in apps && apps[f].dockerfile.Some?
      ensures ItemOf(apps[f]) in items
    {
      var i :| 0 <= i < |order| && order[i] == f;
      assert items[i] == ItemOf(apps[f]);
    }
  }

  // ---------------------------------------------------------------------
  // Docker tags

  /** The branch name made fit for a Docker tag: `/` and then `_` replaced by `-`. */
  function CleanRef(refName: string): (r: string)
    ensures |r| == |refName|
    ensures '/' !in r && '_' !in r
    ensures forall i :: 0 <= i < |r| ==> r[i] == if refName[i] == '/' || refName[i] == '_' then '-' else refName[i]
  {
    var r := Replace(Replace(refName, '/', '-'), '_', '-');
    assert forall i :: 0 <= i < |r| ==> r[i] != '/' && r[i] != '_';
    r
  }

  /** The first seven characters of `s`, or all of it when shorter. */
  function Prefix7(s: string): (r: string)
    ensures r <= s
    ensures |r| == if |s| < 7 then |s| else 7
  {
    if |s| <= 7 then s else s[..7]
  }

  /**
   * `generate_docker_tags`: the short SHA (GITHUB_SHA, by default `latest`),
   * then, when the branch name (GITHUB_REF_NAME, by default `main`) is not
   * empty, the cleaned branch name and `latest` for `main` or `master`, and
   * the timestamp last.
   */
  method GenerateDockerTags(env: Env, timestamp: string) returns (tags: seq<string>)
    ensures var refName := env.refName.GetOr("main");
            && |tags| == 2 + (if refName != "" then 1 else 0) + (if refName == "main" || refName == "master" then 1 else 0)
            && tags[0] == Prefix7(env.sha.GetOr("latest"))
            && (refName != "" ==> tags[1] == CleanRef(refName))
            && ((refName == "main" || refName == "master") ==> tags[2] == "latest")
            && tags[|tags| - 1] == timestamp
  {
    tags := [];
    var sha := Prefix7(env.sha.GetOr("latest"));
    var refName := env.refName.GetOr("main");
    tags := tags + [sha];
    if refName != "" {
      var cleanRef := CleanRef(refName);
      tags := tags + [cleanRef];
      if refName == "main" || refName == "master" {
        tags := tags + ["latest"];
      }
    }
    tags := tags + [timestamp];
  }

  // ---------------------------------------------------------------------
  // The analyzer object

  /** `BuildScopeAnalyzer`: a root folder, the two patterns, and the paths of the last diff. */
  class BuildScopeAnalyzer {
    /** The paths that exist under the root folder, relative to it. */
    const files: set<Path>
    /** The configs under the root folder that YAML loads; a config missing here failed to load. */
    const docs: map<Path, ConfigDoc>
    const includePattern: string
    const excludePattern: string
    var changedFiles: set<Path>
    var deletedFiles: set<Path>

    constructor (files: set<Path>, docs: map<Path, ConfigDoc>, includePattern: string, excludePattern: string)
      ensures this.files == files && this.docs == docs
      ensures this.includePattern == includePattern && this.excludePattern == excludePattern
      ensures changedFiles == {} && deletedFiles == {}
    {
      this.files := files;
      this.docs := docs;
      this.includePattern := includePattern;
      this.excludePattern := excludePattern;
      changedFiles := {};
      deletedFiles := {};
    }

    /**
     * `analyze_folder`: no record when the folder has neither a config file
     * nor a bare `Dockerfile`; otherwise the folder's record, with the config
     * found first (`app.yml` before `app.yaml`), the `Dockerfile` if present,
     * the app name and the given changed files.
     */
    method AnalyzeFolder(folder: Path, changed: set<Path>) returns (info: Option<AppInfo>)
      ensures info.Some? <==> IsApp(files, folder)
      ensures info.Some? ==> Describes(info.value, files, docs, folder, changed)
    {
      var configPath: Option<Path> := None;
      var config: Option<ConfigDoc> := None;
      var configNames := ["app.yml", "app.yaml"];
      for i := 0 to |configNames|
        invariant configPath.None? && config.None?
        invariant forall k :: 0 <= k < i ==> Child(folder, configNames[k]) !in files
      {
        var candidate := Child(folder, configNames[i]);
        if candidate in files {
          configPath := Some(candidate);
          config := LoadConfig(docs, configPath);
          assert i == 1 ==> Child(folder, configNames[0]) !in files;
          break;
        }
      }
      assert configPath.None? ==> Child(folder, configNames[0]) !in files && Child(folder, configNames[1]) !in files;
      assert configPath == ConfigFile(files, folder);

      var dockerfile: Option<Path> := None;
      var dockerfileFull := Child(folder, "Dockerfile");
      if dockerfileFull in files {
        dockerfile := Some(dockerfileFull);
      }

      if configPath.None? && dockerfile.None? {
        return None;
      }

      var appName := AppName(config, folder);
      var changedList := StrList(changed);
      info := Some(AppInfo(Str(folder), appName, StrOf(configPath), StrOf(dockerfile), changedList));
    }

    /** The analysis loop of `find_app_folders`: the record of every group's folder that is an app. */
    method AnalyzeGroups(groups: map<Path, set<Path>>) returns (apps: map<Path, AppInfo>)
      ensures forall f :: f in apps <==> f in groups && IsApp(files, f)
      ensures forall f :: f in apps ==> Describes(apps[f], files, docs, f, groups[f])
    {
      apps := map[];
      var pending := groups.Keys;
      while pending != {}
        invariant pending <= groups.Keys
        invariant forall f :: f in apps <==> f in groups && f !in pending && IsApp(files, f)
        invariant forall f :: f in apps ==> Describes(apps[f], files, docs, f, groups[f])
        decreases pending
      {
        var folder :| folder in pending;
        var info := AnalyzeFolder(folder, groups[folder]);
        if info.Some? {
          apps := apps[folder := info.value];
        }
        pending := pending - {folder};
      }
    }

    /**
     * `find_app_folders`: records the paths of the diff, then analyzes every
     * folder holding a changed path that passes the filter and lists the
     * folders of the deleted paths that pass it.
     */
    method FindAppFolders(env: Env, nameOnly: string, deletedOnly: string) returns (r: Result<Analysis, FilterError>)
      modifies this
      ensures changedFiles == PathSet(nameOnly) && deletedFiles == PathSet(deletedOnly)
      ensures r.Failure? <==> includePattern != "" && excludePattern != "" && (changedFiles != {} || deletedFiles != {})
      ensures r.Success? ==> forall f :: f in r.value.apps <==>
                f in FilteredParents(changedFiles, includePattern, excludePattern) && IsApp(files, f)
      ensures r.Success? ==> forall f :: f in r.value.apps ==>
                Describes(r.value.apps[f], files, docs, f, Group(changedFiles, includePattern, excludePattern, f))
      ensures r.Success? ==> ListsExactly(r.value.deletedFolders, FilteredParents(deletedFiles, includePattern, excludePattern))
      ensures r.Success? && (forall p :: p in deletedFiles ==> Canonical(p)) ==>
                forall i, j :: 0 <= i < j < |r.value.deletedFolders| ==> r.value.deletedFolders[i] != r.value.deletedFolders[j]
      ensures r.Success? ==> r.value.ref == ComparisonRef(env)
    {
      changedFiles, deletedFiles := GetChangedFiles(nameOnly, deletedOnly);

      var groups :- GroupByFolder(changedFiles, includePattern, excludePattern);
      var deletedFolders :- DeletedFolders(deletedFiles, includePattern, excludePattern);

      var apps := AnalyzeGroups(groups);
      forall f | f in deletedFolders && (forall p :: p in deletedFiles ==> Canonical(p))
        ensures Canonical(f)
      {
        var p :| p in deletedFiles && Accepted(p, includePattern, excludePattern) && Parent(p) == f;
        ParentCanonical(p);
      }
      var deletedList := StrList(deletedFolders);
      r := Success(Analysis(apps, deletedList, ComparisonRef(env)));
    }

    /**
     * `generate_matrix_output`: the matrix of the apps that have a
     * `Dockerfile`, the deleted folders, the ref, and whether the matrix is
     * non-empty. `order` names the folder of each matrix entry.
     */
    method GenerateMatrixOutput(env: Env, nameOnly: string, deletedOnly: string)
      returns (r: Result<MatrixOutput, FilterError>, ghost order: seq<Path>)
      modifies this
      ensures changedFiles == PathSet(nameOnly) && deletedFiles == PathSet(deletedOnly)
      ensures r.Failure? <==> includePattern != "" && excludePattern != "" && (changedFiles != {} || deletedFiles != {})
      ensures r.Success? ==> (r.value.hasChanges <==> r.value.matrix != [])
      ensures r.Success? ==> |r.value.matrix| == |order|
      ensures r.Success? ==> forall i :: 0 <= i < |order| ==>
                && order[i] in FilteredParents(changedFiles, includePattern, excludePattern)
                && Child(order[i], "Dockerfile") in files
                && r.value.matrix[i] == ExpectedItem(files, docs, order[i])
      ensures forall i, j :: 0 <= i < j < |order| ==> order[i] != order[j]
      ensures r.Success? ==> forall f ::
                f in FilteredParents(changedFiles, includePattern, excludePattern) && Child(f, "Dockerfile") in files ==> f in order
      ensures r.Success? ==> ListsExactly(r.value.deletedFolders, FilteredParents(deletedFiles, includePattern, excludePattern))
      ensures r.Success? && (forall p :: p in deletedFiles ==> Canonical(p)) ==>
                forall i, j :: 0 <= i < j < |r.value.deletedFolders| ==> r.value.deletedFolders[i] != r.value.deletedFolders[j]
      ensures r.Success? ==> r.value.ref == ComparisonRef(env)
    {
      order := [];
      var analysis := FindAppFolders(env, nameOnly, deletedOnly);
      if analysis.Failure? {
        return Failure(analysis.error), [];
      }
      var apps := analysis.value.apps;
      var items;
      items, order := BuildMatrix(apps);
      forall i | 0 <= i < |order|
        ensures Child(order[i], "Dockerfile") in files && items[i] == ExpectedItem(files, docs, order[i])
      {
        var f := order[i];
        ItemOfDescribed(apps[f], files, docs, f, Group(changedFiles, includePattern, excludePattern, f));
      }
      r := Success(MatrixOutput(items, analysis.value.deletedFolders, analysis.value.ref, |items| > 0));
    }
  }
}
