# mono-merger configuration loader, in Dafny

mono-merger merges many source repositories, and chosen branches of each, into one
target repository. Its run is driven by a YAML configuration. `AppConfig.from_dict`
turns the already-parsed document into three records:

- `BranchConfig{name, domain}`;
- `RepoConfig{url, branches}`;
- `AppConfig{repos, domain_mapping, output_dir}`.

This project models that conversion and proves what it does.

- `Yaml.Value` is the parsed document: null, booleans, integers, strings, lists,
  and mappings with string keys.
- `Config.ParseAppConfig` is the conversion as a pure function. It looks keys up
  in the source's order. `Config.FromDict` is the same operation as a method: it
  mirrors the source's loop, which appends one `RepoConfig` per entry of
  `data["repos"]`. It is proved equal to the function.
- A missing key ends the conversion with `Failure(MissingKey(k))`. This models the
  `KeyError` that the source logs and re-raises.
- The record fields have type `Value`, not `string`. The source copies whatever
  the document holds under each key. It never checks the `str` annotations of the
  dataclasses.

What is proved:

- The conversion succeeds exactly when every required key is present at every
  level (`Config.Complete`). Empty `repos` and `branches` lists are accepted.
- On success, order and length are kept at both levels. Every `url`, `name`,
  `domain`, `domain_mapping` and `output_dir` is copied verbatim. A branch's domain
  is not checked against `domain_mapping`.
- On failure, the reported key is the first one missing in lookup order. The order
  is `repos`; then, for each repository in turn, its `branches`, each branch's
  `name` then `domain`, then its `url`; then `domain_mapping`; then `output_dir`.
  A failure always names one of these seven keys.
- Keys the loader does not read are ignored at every level. `ConfigRoundTrip.Strip`
  removes them, and the result does not change.
- Round trips with the serialiser `ConfigRoundTrip.ToDict`, both ways. Loading a
  serialised configuration gives it back. Serialising a loaded configuration gives
  back the document, without its unread keys.
- The sample document of the test fixtures loads to the sample configuration: two
  repositories, with two branches and one branch.

## Model

| member | source | states |
|---|---|---|
| `Config.ParseBranch` | mono_merger/config.py:46 | a branch entry converts exactly when it has both `name` and `domain`; the two values are copied unchanged; on failure the reported key is absent, and it is `domain` only when `name` is present (`name` is looked up first) |
| `Config.ParseBranches` | mono_merger/config.py:45-48 | the branch comprehension: on success one `BranchConfig` per entry; a failure is a `KeyError` for `name` or `domain`; its full meaning (success iff complete, values verbatim, first incomplete entry's key) is `ConfigProperties.ParseBranchesCorrect` |
| `Config.ParseRepo` | mono_merger/config.py:44-49 | one loop iteration: on success the entry has `branches` and `url`, `url` is copied unchanged and there is one branch per entry of `branches`; a failure names `branches`, `name`, `domain` or `url`; the full statement is `ConfigProperties.ParseRepoCorrect` |
| `Config.ParseRepos` | mono_merger/config.py:43-49 | the loop over `data["repos"]`: on success one `RepoConfig` per entry; a failure names `branches`, `name`, `domain` or `url`; the full statement is `ConfigProperties.ParseReposCorrect` |
| `Config.ParseAppConfig` | mono_merger/config.py:42-63 | the pure `from_dict`: on success one repo per `repos` entry and `domain_mapping` and `output_dir` copied unchanged; a failure is a `KeyError` for one of the seven required keys; its meaning is carried by `ConfigProperties.FromDictSucceedsIffComplete`, `ConfigProperties.FromDictCopiesVerbatim`, `ConfigProperties.FromDictReportsFirstMissingKey` and `ConfigRoundTrip.RoundTrip` |
| `Config.ParseReposAppend` | mono_merger/config.py:43-49 | the repository loop is sequential: once a prefix of the list converts, the result for the whole list is decided by the rest, whose records follow the prefix's, and a failure in the rest is the result |
| `Config.FromDict` | mono_merger/config.py:37-70 | the append loop over `data["repos"]` returns exactly what the pure conversion `ParseAppConfig` returns, its configuration or its missing key; the loop invariant ties `repos` to the entries processed so far |
| `ConfigProperties.ParseBranchesCorrect` | mono_merger/config.py:45-48 | the comprehension over `branches` succeeds iff every entry has `name` and `domain`; then it yields one `BranchConfig` per entry, in order, with both fields copied verbatim; otherwise it fails with the missing key of the first incomplete entry |
| `ConfigProperties.ParseRepoCorrect` | mono_merger/config.py:44-49 | one repository entry converts iff it has `branches`, every branch is complete, and it has `url`; `url` is copied verbatim and the branches keep order, length and values; failure reports `branches`, else the first incomplete branch's key, else `url` |
| `ConfigProperties.ParseReposCorrect` | mono_merger/config.py:43-49 | the loop over `repos` succeeds iff every entry is complete; then there is exactly one `RepoConfig` per entry, in order, each the conversion of its entry; otherwise the failure is that of the first incomplete entry |
| `ConfigProperties.FromDictSucceedsIffComplete` | mono_merger/config.py:42-67 | `from_dict` produces a configuration iff every required key is present at every level; there is no non-emptiness check on `repos` or `branches` |
| `ConfigProperties.FromDictCopiesVerbatim` | mono_merger/config.py:43-58 | on success: one repo per `repos` entry in order, each `url` unchanged, one branch per `branches` entry in order with `name` and `domain` unchanged, `domain_mapping` and `output_dir` unchanged |
| `ConfigProperties.FromDictReportsFirstMissingKey` | mono_merger/config.py:44-57 | the reported key is the first one missing in lookup order: `repos`; then the first incomplete repository's own missing key; then `domain_mapping`; then `output_dir` |
| `ConfigRoundTrip.StripBranchesParse` | mono_merger/config.py:45-48 | removing every key other than `name` and `domain` from each branch entry leaves the result of the branch comprehension unchanged |
| `ConfigRoundTrip.StripReposParse` | mono_merger/config.py:43-49 | removing every unread key from each repository entry and its branches leaves the result of the repository loop unchanged |
| `ConfigRoundTrip.UnknownKeysIgnored` | mono_merger/config.py:44-58 | keys other than `repos`, `domain_mapping`, `output_dir`, `url`, `branches`, `name` and `domain` are ignored at every level: removing them changes neither the configuration nor the reported key |
| `ConfigRoundTrip.SameRequiredKeysSameResult` | mono_merger/config.py:44-58 | two documents that agree on the keys the loader reads load to the same result |
| `ConfigRoundTrip.BranchesRoundTrip` | mono_merger/config.py:45-48 | converting serialised branches gives back the same branches |
| `ConfigRoundTrip.ReposRoundTrip` | mono_merger/config.py:43-49 | converting serialised repositories gives back the same repositories |
| `ConfigRoundTrip.RoundTrip` | mono_merger/config.py:13-58 | for every configuration `c`, `from_dict(ToDict(c))` succeeds with `c` |
| `ConfigRoundTrip.BranchesSerializeParsed` | mono_merger/config.py:45-48 | serialising converted branches gives back the branch entries without their unread keys |
| `ConfigRoundTrip.ReposSerializeParsed` | mono_merger/config.py:43-49 | serialising converted repositories gives back the repository entries without their unread keys |
| `ConfigRoundTrip.SerializeParsed` | mono_merger/config.py:42-63 | serialising a loaded configuration gives back the document's repository, branch and domain structure, without its unread keys |
| `ConfigExamples.SampleConfigDictParses` | tests/conftest.py:50-101 | the fixture dictionary loads to the fixture configuration, fields unchanged; the loaded configuration has two repositories, with two and one branches |
| `ConfigExamples.EmptyListsAccepted` | mono_merger/config.py:43-49 | an empty `repos` list, and a repository with an empty `branches` list, are accepted |
| `ConfigExamples.DomainNotCheckedAgainstMapping` | mono_merger/config.py:45-58 | a branch whose domain is absent from an empty `domain_mapping` loads, with any value kinds for name, domain, url and output directory |
| `ConfigExamples.FirstMissingKeyReported` | mono_merger/config.py:44-57 | with both a repository's `url` and the top-level `output_dir` missing, `url` is reported, because it is looked up first |

## Left out

- `load_config_async` (mono_merger/config.py:73-97) is left out. It reads the file and runs the YAML parser, which is I/O and a foreign library. The model starts from the parsed `Value`.
- `parse_args` (mono_merger/config.py:100-112) is command-line plumbing and is left out.
- Every `logger` call in mono_merger/config.py is left out, because logging is a side effect only.
- Config.FromDict: its `WellShaped` precondition demands mappings and lists wherever the loader subscripts or iterates. A document of the wrong shape raises `TypeError`, which mono_merger/config.py:68-70 logs and re-raises. That path is not modelled.
- Config.FromDict: `WellShaped` also demands the right shape of entries that a `KeyError` would never reach. It is therefore slightly stronger than what the source needs.
- Some Python quirks are not modelled. Iterating a mapping or a string in place of the `repos` list is one. Another is a non-string mapping key.
- YAML scalar kinds other than null, booleans, integers and strings (floats, dates) are not modelled. Scalars are only copied, never inspected, so their kind does not change the loader's behaviour.
- ConfigExamples.SampleConfigDictParses: the hand-built fixture configuration in tests/conftest.py:50-74 uses a temporary directory path as `output_dir`. The model uses the dictionary fixture's string `/tmp/test-mono-repo` for both sides.
- `AsyncGitRepo.run_git_command` (mono_merger/async_git.py) is left out. It runs a subprocess under a timeout, which is I/O and concurrency.
- `RepoMerger.prepare_mono_repo` (mono_merger/merge_repos.py) is left out. It is filesystem and git plumbing.
- `main` and `bootstrap` (mono_merger/main.py) only print the configuration and wire I/O, so they are left out.
- tests/unit/test_merge_repos.py:30-58 and tests/unit/test_async_git.py:15-52 call merge methods (`clone_repo_branches`, `_subtree_add_branches`, `subtree_add`) that mono_merger/ does not define, so there is no merge logic to model.
