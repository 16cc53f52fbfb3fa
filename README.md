# Build scope analyzer, modelled in Dafny

This project models the decision logic of `BuildScopeAnalyzer` in
`build-scope-analyzer/build_scope_analyzer.py`, a GitHub Actions helper.
The helper turns the output of `git diff --name-only` and a view of the
working tree into a build matrix, and proves properties of that logic.

The analyzer works in these steps:

1. It picks the ref to diff against from the event kind.
2. It reads the changed paths and the deleted paths from two diff outputs.
3. It filters them with one include glob or one exclude glob.
4. It groups the changed paths by folder.
5. It decides which folders are apps. An app has an `app.yml`/`app.yaml` config or a bare `Dockerfile`.
6. It resolves each app's name.
7. It puts the apps that have a `Dockerfile` into the matrix.

It can also derive Docker tags from the commit SHA and the branch name.

Files:

- `wrappers.dfy`: `Option` and `Result`.
- `text.dfy`: Python's `str.strip()`, `str.splitlines()` and `str.replace()`, and splitting and joining at a separator. Round-trip lemmas link splitting and joining.
- `paths.dfy`: `pathlib` paths as segment sequences. It defines string form, parent, name and child, and proves that parsing and string form are inverse.
- `glob.dfy`: `fnmatch.fnmatch` for literal characters, `?` and `*`.
- `build_scope.dfy`: the analyzer itself. The pure parts are functions. The source's loops are methods with loop invariants. `BuildScopeAnalyzer` is a class whose `changedFiles`/`deletedFiles` fields are assigned by `FindAppFolders`, as `find_app_folders` assigns `self.changed_files`/`self.deleted_files`.

The model's inputs stand in for the source's effects:

- Environment variables (`GITHUB_EVENT_NAME`, `GITHUB_BASE_REF`, `GITHUB_SHA`, `GITHUB_REF_NAME`) are an `Env` value. An unset variable is `None`.
- The two git outputs are strings.
- The files under the root folder are a `set<Path>` of relative paths.
- The parsed YAML configs are a `map<Path, ConfigDoc>`. A config file with no entry failed to load.
- The timestamp tag is a string parameter.

The order in which Python iterates over sets and over the dict built from them is not specified. The loops over sets therefore pick the next element arbitrarily. The lists built from sets (`changed_files`, `deleted_folders`, the matrix) are specified by their length and their members, not by their order.

Where descriptions of this tool and the code differ, the model follows the code. The repository's own tests (`test_build_scope_analyzer.py`) expect these features:

- `--name-status` parsing (line 167)
- a deletion report broken down by app and by container (line 274)
- an `all_apps` listing (line 473) and a `has_deletions` flag (line 175)
- a `require_app_config` mode (line 228)
- an empty ref for manual dispatch (line 519)

None of them is in `build_scope_analyzer.py`, and none is modelled. The output has exactly `matrix`, `deleted_folders`, `ref` and `has_changes`.

## Model

| member | source | states |
|---|---|---|
| `Text.SkipSpace` | build-scope-analyzer/build_scope_analyzer.py:34 | the scan from the front stops at the first character that is not white space in Python's sense, or at the end. Everything it skips is white space. |
| `Text.SkipSpaceBack` | build-scope-analyzer/build_scope_analyzer.py:34 | the scan from the back stops after the last character that is not white space, or at the front of the slice. Everything it drops is white space. |
| `Text.Strip` | build-scope-analyzer/build_scope_analyzer.py:34 | `stdout.strip()` gives a slice of the output. Only white space lies before and after the slice, and the slice neither starts nor ends with white space. |
| `Text.Lines` | build-scope-analyzer/build_scope_analyzer.py:63 | `splitlines()` gives at least one piece, and no piece contains a line break. |
| `Text.LinesSplit` | build-scope-analyzer/build_scope_analyzer.py:63 | the pieces are exactly those of splitting at "\n" once every line-break character, `\r`, `\v`, `\f`, `\x1c`-`\x1e`, `\x85`, `\u2028` and `\u2029` included, is read as "\n". |
| `Text.LinesJoin` | build-scope-analyzer/build_scope_analyzer.py:63 | lines without line breaks, joined by "\n", split back into exactly those lines. |
| `Text.Split` | build-scope-analyzer/build_scope_analyzer.py:65 | splitting at a separator gives at least one piece, and no piece contains the separator. |
| `Text.JoinSplit` | build-scope-analyzer/build_scope_analyzer.py:65 | joining the pieces of a split with the same separator gives back the original string. |
| `Text.SplitJoin` | build-scope-analyzer/build_scope_analyzer.py:65 | splitting a join of separator-free pieces gives back the pieces. |
| `Text.Replace` | build-scope-analyzer/build_scope_analyzer.py:189 | `replace` keeps the length, changes every `from` character to `to` and leaves every other character as it was. |
| `Paths.ParsePath` | build-scope-analyzer/build_scope_analyzer.py:65 | `Path(line)` has at least one segment, and no segment contains "/". |
| `Paths.Parent` | build-scope-analyzer/build_scope_analyzer.py:101 | `path.parent` is a prefix of the path that is one segment shorter, except for `.`. |
| `Paths.Str` | build-scope-analyzer/build_scope_analyzer.py:78 | for a canonical path, `str(path)` is never empty, and it is "." exactly for the empty path. `StrParsePath`, `ParseStr` and `StrInjective` tie it to parsing. |
| `Paths.Name` | build-scope-analyzer/build_scope_analyzer.py:165 | `path.name` is the last segment: the parent followed by the name gives the path back. The name of `.` is empty. |
| `Paths.Child` | build-scope-analyzer/build_scope_analyzer.py:131 | `folder / name` has parent `folder` and name `name`. |
| `Paths.StrParsePath` | build-scope-analyzer/build_scope_analyzer.py:78 | `str(Path(line))` is the line itself. |
| `Paths.ParseStr` | build-scope-analyzer/build_scope_analyzer.py:65 | parsing the string form of a canonical path gives the path back. |
| `Paths.StrInjective` | build-scope-analyzer/build_scope_analyzer.py:119 | distinct canonical paths have distinct string forms. |
| `Paths.ParentCanonical` | build-scope-analyzer/build_scope_analyzer.py:108 | the parent of a canonical path is canonical. |
| `Glob.Match` | build-scope-analyzer/build_scope_analyzer.py:84-87 | a non-empty pattern of stars only matches every path, and a pattern without a star matches only paths of its own length. `StarFreeMatch` fixes star-free patterns, `?` included. `LiteralMatch`, `StarMatchesAll`, `PrefixStar` and `StarSuffix` fix a single leading or trailing star around a literal. Patterns with a star between other wildcards or inside literal text on both sides are covered only by the definition. |
| `Glob.LiteralMatch` | build-scope-analyzer/build_scope_analyzer.py:84 | a pattern without wildcards matches exactly itself. |
| `Glob.StarMatchesAll` | build-scope-analyzer/build_scope_analyzer.py:84 | the pattern `*` matches every path. |
| `Glob.PrefixStar` | build-scope-analyzer/build_scope_analyzer.py:84-87 | a literal prefix followed by `*` matches exactly the paths that start with the prefix, however deep. So the star also matches "/". |
| `Glob.StarFreeMatch` | build-scope-analyzer/build_scope_analyzer.py:84-87 | a pattern without a star matches exactly the strings of its length that agree with it at every position other than a `?`, and each `?` matches any one character, "/" included. |
| `Glob.StarSuffix` | build-scope-analyzer/build_scope_analyzer.py:84-87 | a star followed by a literal suffix, such as `*.md`, matches exactly the paths that end with the suffix, in any folder. |
| `BuildScope.ComparisonRef` | build-scope-analyzer/build_scope_analyzer.py:40-54 | a `pull_request` event gives "origin/" plus the base ref, with the base ref defaulting to `main`. Every other event gives `HEAD~1`, and an unset event counts as `push`. The ref starts with "origin/" exactly for a pull request, and it is never empty. |
| `BuildScope.PathSet` | build-scope-analyzer/build_scope_analyzer.py:61-72 | every path has at least one segment, and an output of white space only gives no path. `PathSetExact` states which paths there are. |
| `BuildScope.PathSetExact` | build-scope-analyzer/build_scope_analyzer.py:61-72 | every non-empty line of the stripped output gives a path. Every path's string form is a non-empty line, and the path is that line parsed. Empty lines contribute nothing, and repeated lines collapse. |
| `BuildScope.CollectPaths` | build-scope-analyzer/build_scope_analyzer.py:62-65 | the line loop builds exactly the set of parsed non-empty lines of the stripped output. |
| `BuildScope.GetChangedFiles` | build-scope-analyzer/build_scope_analyzer.py:56-74 | the changed set and the deleted set are the path sets of the two diff outputs. Each path is the parse of one of the output's lines. |
| `BuildScope.ShouldIncludePath` | build-scope-analyzer/build_scope_analyzer.py:76-89 | it is an error iff both patterns are set. Otherwise a path passes iff it matches the include pattern (when set) and does not match the exclude pattern (when set). With neither set, every path passes. |
| `BuildScope.FilterStep` | build-scope-analyzer/build_scope_analyzer.py:99-104 | checking one more path adds its folder to the filtered folders, and the path to its folder's group, exactly when the path passes the filter. Nothing else changes. |
| `BuildScope.AddToGroup` | build-scope-analyzer/build_scope_analyzer.py:102-104 | the keys gain the path's folder and no other key. Only that folder's group gains the path, and a folder that was not a key starts from an empty group. Every other group is unchanged. |
| `BuildScope.GroupStep` | build-scope-analyzer/build_scope_analyzer.py:99-104 | adding a passing path to its folder's group, and skipping a failing one, keeps the folder map exact for the paths checked so far. |
| `BuildScope.GroupingExact` | build-scope-analyzer/build_scope_analyzer.py:99-104 | in an exact grouping every passing changed path is in its folder's group. Every grouped path is a passing changed path of that folder, so filtered-out paths are in no group. No group is empty. |
| `BuildScope.GroupByFolder` | build-scope-analyzer/build_scope_analyzer.py:99-104 | the group keys are exactly the parents of the changed paths that pass the filter. Each group is exactly the passing changed paths in that folder, and no group is empty. It fails iff both patterns are set and some path is checked. |
| `BuildScope.DeletedFolders` | build-scope-analyzer/build_scope_analyzer.py:106-108 | the deleted folders are exactly the parents of the deleted paths that pass the filter. It fails iff both patterns are set and there is a deleted path. |
| `BuildScope.StrList` | build-scope-analyzer/build_scope_analyzer.py:119 | the list holds one string form per path of the set and every path's string form. When the paths are canonical, no entry repeats. |
| `BuildScope.ConfigFile` | build-scope-analyzer/build_scope_analyzer.py:128-139 | a config is found iff `app.yml` or `app.yaml` exists in the folder. When `app.yml` exists, it is the one found. The found file exists and lies directly in the folder. |
| `BuildScope.LoadConfig` | build-scope-analyzer/build_scope_analyzer.py:134-138 | there is a parsed config exactly when a config file was found and it loaded, and it is that file's document. |
| `BuildScope.IsApp` | build-scope-analyzer/build_scope_analyzer.py:148 | a folder is an app iff it holds `app.yml`, `app.yaml` or a bare `Dockerfile`. |
| `BuildScope.VariantsDoNotQualify` | build-scope-analyzer/build_scope_analyzer.py:141-149 | a folder holding only `Dockerfile.<suffix>` variants is not an app. Only a bare `Dockerfile` or a config counts. |
| `BuildScope.VariantNeverDecides` | build-scope-analyzer/build_scope_analyzer.py:141-149 | adding a `Dockerfile.<suffix>` file anywhere never changes whether a folder is an app. |
| `BuildScope.AppName` | build-scope-analyzer/build_scope_analyzer.py:151-165 | the name is the config's `name` if truthy. Otherwise it is the first container's `name` if truthy. In every other case, a missing or unloaded config included, it is the folder's base name. An empty name only comes from an empty base name, which `Paths.Name` gives for the root folder `.`. |
| `BuildScope.StrOf` | build-scope-analyzer/build_scope_analyzer.py:170-171 | `app_config` and `dockerfile` are `None` exactly when no file was found, and otherwise the string form of the found file. |
| `BuildScope.ItemOf` | build-scope-analyzer/build_scope_analyzer.py:210-216 | the matrix entry keeps everything of the record except its changed files: the record is the entry's path, name, config and `Dockerfile` plus those files. |
| `BuildScope.ItemOfDescribed` | build-scope-analyzer/build_scope_analyzer.py:209-216 | the matrix entry of a folder's record carries the folder's path, app name and `Dockerfile`. It carries an `app_config` exactly when the folder has a config file. |
| `BuildScope.BuildMatrix` | build-scope-analyzer/build_scope_analyzer.py:207-218 | there is one matrix entry per app whose record has a `Dockerfile`, and no other entry. Each entry copies the record, with `app_config` present iff the record has one. |
| `BuildScope.CleanRef` | build-scope-analyzer/build_scope_analyzer.py:187-190 | the cleaned branch name has the same length. Every "/" and every "_" becomes "-", and every other character is kept. |
| `BuildScope.Prefix7` | build-scope-analyzer/build_scope_analyzer.py:180 | `sha[:7]` is a prefix of the SHA, of length 7 or the whole SHA when shorter. |
| `BuildScope.GenerateDockerTags` | build-scope-analyzer/build_scope_analyzer.py:175-201 | the tags are, in order: the short SHA (default `latest`); the cleaned branch name when the name (default `main`) is non-empty; `latest` exactly for `main` or `master`; and the timestamp last. |
| `BuildScope.BuildScopeAnalyzer.constructor` | build-scope-analyzer/build_scope_analyzer.py:23-28 | it keeps the root's files, the configs and both patterns, and starts with empty changed and deleted sets. |
| `BuildScope.BuildScopeAnalyzer.AnalyzeFolder` | build-scope-analyzer/build_scope_analyzer.py:123-173 | there is no record iff the folder has neither a config file nor a bare `Dockerfile`. The record copies the folder's path and has the config found first. That holds even when the config failed to load. It has the `Dockerfile` if present, the resolved app name and exactly the given changed files. |
| `BuildScope.BuildScopeAnalyzer.AnalyzeGroups` | build-scope-analyzer/build_scope_analyzer.py:111-115 | a group's folder has a record iff it is an app, and that record describes the folder and its group. |
| `BuildScope.BuildScopeAnalyzer.FindAppFolders` | build-scope-analyzer/build_scope_analyzer.py:91-121 | the fields hold the parsed diff paths. It fails iff both patterns are set and a path is checked. The apps are exactly the app folders among the parents of passing changed paths, each described with its group. `deleted_folders` lists the parents of passing deleted paths without repeats for canonical paths. The ref is the comparison ref. |
| `BuildScope.BuildScopeAnalyzer.GenerateMatrixOutput` | build-scope-analyzer/build_scope_analyzer.py:203-227 | the matrix has one entry per folder that holds a passing changed path and a bare `Dockerfile`, and no other entry. `has_changes` is true iff the matrix is non-empty. The deleted folders and the ref are passed through. |

## Left out

- `run_git_command` (build_scope_analyzer.py:30-38) is left out. It runs git in a subprocess and exits the process when git fails. The two diff outputs are inputs, so a failing git command is outside the model. Its `strip()` is modelled.
- Decoding the subprocess's bytes is left out, and so is its translation of "\r\n" and "\r" to "\n". Neither changes the set of non-empty lines.
- `Text.Lines` differs from Python's `splitlines()` only in empty pieces: a "\r\n" pair and a final line break give one extra empty piece, and the empty string gives one empty piece where Python gives none. The analyzer skips empty lines, so the path sets are the same.
- File existence checks and YAML loading are left out, including the warning printed when a config fails to parse. They are replaced by the `files` set and the `docs` map.
- `ConfigDoc` covers only well-formed configs: a string or absent `name`, and a `containers` list whose entries are mappings. Several cases are not modelled:
  - a `name` that is not a string;
  - a `template` that is present but not a mapping;
  - a first container that is not a mapping.

  In the source, the last two raise an exception. An absent or non-list `containers` value gives the empty list, which behaves the same in the source.
- Environment reads (build_scope_analyzer.py:42, 50, 180-181) are parameters. So is `datetime.utcnow()` (197-199): the timestamp is a ready-made string, and its `%Y%m%d-%H%M%S` format is not modelled.
- `main` (build_scope_analyzer.py:230-272) is left out: argument parsing, its own check that both patterns are not set, and writing `key=value` lines or JSON.
- `Glob.Match`: no lemma characterises a star that has wildcards or literal text on both sides (`apps/*/Dockerfile`). Such patterns are fixed only by the definition, because a general lemma would need a split of the string at every possible star position.
- `Glob.Match` does not model `fnmatch` character classes (`[...]`, `[!...]`); it matches `[` literally. It also does not model `os.path.normcase`, which is the identity on POSIX.
- `Paths.ParsePath` does not model `pathlib` normalisation. The model does not collapse `//`, drop `.` segments or a trailing `/`, and it has no absolute paths. Git prints canonical relative paths, and for canonical paths the model and `pathlib` agree.
- `root_path` resolution is left out. The model assumes that the paths git prints and the paths under the root folder are relative to the same folder.
- The iteration order of sets and dicts is not modelled. Lists built from them are specified up to order.
- `generate_docker_tags` receives an `app_info` argument that it never reads. `GenerateDockerTags` therefore takes no record. Nothing in the source calls `generate_docker_tags`.
