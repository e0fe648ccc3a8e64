/** The typed configuration records and their construction from a parsed YAML
    document (`AppConfig.from_dict`). Field values are copied through exactly as
    they appear in the document: the loader never checks their type. */
module Config {
  import opened Yaml

  datatype BranchConfig = BranchConfig(name: Value, domain: Value)

  datatype RepoConfig = RepoConfig(url: Value, branches: seq<BranchConfig>)

  datatype AppConfig = AppConfig(repos: seq<RepoConfig>, domainMapping: Value, outputDir: Value)

  /** The only failure modelled: a required key is absent (Python's `KeyError`). */
  datatype ConfigError = MissingKey(key: string)

  datatype Result<+T> = Success(value: T) | Failure(error: ConfigError)

  /** Every key the loader requires somewhere in the document. */
  const RequiredKeys: set<string> :=
    {"repos", "branches", "name", "domain", "url", "domain_mapping", "output_dir"}

  // ---------------------------------------------------------------------------
  // Shape: mappings and lists wherever the loader subscripts or iterates.
  // ---------------------------------------------------------------------------

  predicate RepoShaped(repo: Value) {
    repo.VMap? &&
    ("branches" in repo.entries ==>
       repo.entries["branches"].VList? && AllDicts(repo.entries["branches"].items))
  }

  predicate ReposShaped(rs: seq<Value>) {
    forall i :: 0 <= i < |rs| ==> RepoShaped(rs[i])
  }

  predicate WellShaped(data: Value) {
    data.VMap? &&
    ("repos" in data.entries ==>
       data.entries["repos"].VList? && ReposShaped(data.entries["repos"].items))
  }

  /** The `branches` list of a repository entry. */
  function BranchList(repo: Value): seq<Value>
    requires RepoShaped(repo) && "branches" in repo.entries
  {
    repo.entries["branches"].items
  }

  /** The `repos` list of the document. */
  function RepoList(data: Value): seq<Value>
    requires WellShaped(data) && "repos" in data.entries
  {
    data.entries["repos"].items
  }

  // ---------------------------------------------------------------------------
  // Completeness: every required key present, stated independently of the
  // order in which the loader looks the keys up.
  // ---------------------------------------------------------------------------

  predicate BranchComplete(b: Value)
    requires b.VMap?
  {
    "name" in b.entries && "domain" in b.entries
  }

  predicate BranchesComplete(bs: seq<Value>)
    requires AllDicts(bs)
  {
    forall i :: 0 <= i < |bs| ==> BranchComplete(bs[i])
  }

  predicate RepoComplete(repo: Value)
    requires RepoShaped(repo)
  {
    "branches" in repo.entries && BranchesComplete(BranchList(repo)) && "url" in repo.entries
  }

  predicate ReposComplete(rs: seq<Value>)
    requires ReposShaped(rs)
  {
    forall i :: 0 <= i < |rs| ==> RepoComplete(rs[i])
  }

  predicate Complete(data: Value)
    requires WellShaped(data)
  {
    "repos" in data.entries && ReposComplete(RepoList(data)) &&
    "domain_mapping" in data.entries && "output_dir" in data.entries
  }

  /** `j` is the first branch entry that lacks a required key. */
  predicate FirstIncompleteBranch(bs: seq<Value>, j: int)
    requires AllDicts(bs)
  {
    0 <= j < |bs| && !BranchComplete(bs[j]) && forall i :: 0 <= i < j ==> BranchComplete(bs[i])
  }

  /** `j` is the first repository entry that lacks a required key. */
  predicate FirstIncompleteRepo(rs: seq<Value>, j: int)
    requires ReposShaped(rs)
  {
    0 <= j < |rs| && !RepoComplete(rs[j]) && forall i :: 0 <= i < j ==> RepoComplete(rs[i])
  }

  // ---------------------------------------------------------------------------
  // The loader, as pure functions in the source's evaluation order.
  // ---------------------------------------------------------------------------

  /** `BranchConfig(name=branch["name"], domain=branch["domain"])`: `name` is
      looked up before `domain`. */
  function ParseBranch(b: Value): (r: Result<BranchConfig>)
    requires b.VMap?
    ensures r.Success? <==> BranchComplete(b)
    ensures r.Success? ==> r.value.name == b.entries["name"] && r.value.domain == b.entries["domain"]
    ensures r.Failure? ==>
      r.error.key !in b.entries &&
      (r.error.key == "name" || (r.error.key == "domain" && "name" in b.entries))
  {
    if "name" !in b.entries then Failure(MissingKey("name"))
    else if "domain" !in b.entries then Failure(MissingKey("domain"))
    else Success(BranchConfig(b.entries["name"], b.entries["domain"]))
  }

  /** The list comprehension over `repo_data["branches"]`: elements in order,
      stopping at the first failing one. */
  function ParseBranches(bs: seq<Value>): (r: Result<seq<BranchConfig>>)
    requires AllDicts(bs)
    ensures r.Success? ==> |r.value| == |bs|
    ensures r.Failure? ==> r.error.key in {"name", "domain"}
  {
    if bs == [] then Success([])
    else
      match ParseBranch(bs[0])
      case Failure(e) => Failure(e)
      case Success(b) =>
        match ParseBranches(bs[1..])
        case Failure(e) => Failure(e)
        case Success(tail) => Success([b] + tail)
  }

  /** One iteration of the loop body: `branches` first, then `url`. */
  function ParseRepo(repo: Value): (r: Result<RepoConfig>)
    requires RepoShaped(repo)
    ensures r.Success? ==>
      "branches" in repo.entries && "url" in repo.entries &&
      r.value.url == repo.entries["url"] && |r.value.branches| == |BranchList(repo)|
    ensures r.Failure? ==> r.error.key in {"branches", "name", "domain", "url"}
  {
    if "branches" !in repo.entries then Failure(MissingKey("branches"))
    else
      match ParseBranches(BranchList(repo))
      case Failure(e) => Failure(e)
      case Success(bs) =>
        if "url" !in repo.entries then Failure(MissingKey("url"))
        else Success(RepoConfig(repo.entries["url"], bs))
  }

  /** The loop over `data["repos"]`, stopping at the first failing entry. */
  function ParseRepos(rs: seq<Value>): (r: Result<seq<RepoConfig>>)
    requires ReposShaped(rs)
    ensures r.Success? ==> |r.value| == |rs|
    ensures r.Failure? ==> r.error.key in {"branches", "name", "domain", "url"}
  {
    if rs == [] then Success([])
    else
      match ParseRepo(rs[0])
      case Failure(e) => Failure(e)
      case Success(r) =>
        match ParseRepos(rs[1..])
        case Failure(e) => Failure(e)
        case Success(tail) => Success([r] + tail)
  }

  /** The whole of `from_dict`: `repos`, then `domain_mapping`, then `output_dir`. */
  function ParseAppConfig(data: Value): (r: Result<AppConfig>)
    requires WellShaped(data)
    ensures r.Success? ==>
      && "repos" in data.entries && |r.value.repos| == |RepoList(data)|
      && "domain_mapping" in data.entries && r.value.domainMapping == data.entries["domain_mapping"]
      && "output_dir" in data.entries && r.value.outputDir == data.entries["output_dir"]
    ensures r.Failure? ==> r.error.key in RequiredKeys
  {
    if "repos" !in data.entries then Failure(MissingKey("repos"))
    else
      match ParseRepos(RepoList(data))
      case Failure(e) => Failure(e)
      case Success(repos) =>
        if "domain_mapping" !in data.entries then Failure(MissingKey("domain_mapping"))
        else if "output_dir" !in data.entries then Failure(MissingKey("output_dir"))
        else Success(AppConfig(repos, data.entries["domain_mapping"], data.entries["output_dir"]))
  }

  /** Parsing a concatenation: once the front parses, the result is decided
      by the back, whose entries are appended after the front's. */
  lemma {:induction false} ParseReposAppend(front: seq<Value>, back: seq<Value>)
    requires ReposShaped(front) && ReposShaped(back) && ParseRepos(front).Success?
    ensures ReposShaped(front + back)
    ensures ParseRepos(front + back) ==
      if ParseRepos(back).Success? then Success(ParseRepos(front).value + ParseRepos(back).value)
      else ParseRepos(back)
  {
    if front == [] {
      assert front + back == back;
      if ParseRepos(back).Success? {
        assert ParseRepos(front).value + ParseRepos(back).value == ParseRepos(back).value;
      }
    } else {
      var rest := front[1..];
      assert (front + back)[0] == front[0];
      assert (front + back)[1..] == rest + back;
      ParseReposAppend(rest, back);
      if ParseRepos(back).Success? {
        var r := ParseRepo(front[0]).value;
        assert [r] + (ParseRepos(rest).value + ParseRepos(back).value)
            == ([r] + ParseRepos(rest).value) + ParseRepos(back).value;
      }
    }
  }

  /** `AppConfig.from_dict`: the `repos` list is built by appending one
      `RepoConfig` per entry of `data["repos"]`; any absent key aborts with
      that key. */
  method FromDict(data: Value) returns (r: Result<AppConfig>)
    requires WellShaped(data)
    ensures r == ParseAppConfig(data)
  {
    if "repos" !in data.entries {
      return Failure(MissingKey("repos"));
    }
    var repoList := data.entries["repos"].items;
    var repos: seq<RepoConfig> := [];
    for i := 0 to |repoList|
      invariant ParseRepos(repoList[..i]) == Success(repos)
    {
      var repoData := repoList[i];
      assert repoList[..i] + [repoData] == repoList[..i + 1];
      assert repoList[..i] + repoList[i..] == repoList;
      assert repoList[i..][0] == repoData;
      ParseReposAppend(repoList[..i], [repoData]);
      ParseReposAppend(repoList[..i], repoList[i..]);
      if "branches" !in repoData.entries {
        return Failure(MissingKey("branches"));
      }
      var branches := ParseBranches(repoData.entries["branches"].items);
      if branches.Failure? {
        return Failure(branches.error);
      }
      if "url" !in repoData.entries {
        return Failure(MissingKey("url"));
      }
      var repo := RepoConfig(repoData.entries["url"], branches.value);
      assert ParseRepo(repoData) == Success(repo);
      assert [repoData][0] == repoData && [repoData][1..] == [];
      assert [repo] + [] == [repo];
      assert ParseRepos([repoData]) == Success([repo]);
      repos := repos + [repo];
    }
    assert repoList[..|repoList|] == repoList;
    if "domain_mapping" !in data.entries {
      return Failure(MissingKey("domain_mapping"));
    }
    if "output_dir" !in data.entries {
      return Failure(MissingKey("output_dir"));
    }
    return Success(AppConfig(repos, data.entries["domain_mapping"], data.entries["output_dir"]));
  }
}
