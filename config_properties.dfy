/** What `AppConfig.from_dict` promises: it succeeds exactly when every
    required key is present, it copies every field verbatim and keeps order and
    length at both levels, it reports the first absent key in its lookup order,
    it ignores every other key, and it inverts serialisation. */
module ConfigProperties {
  import opened Yaml
  import opened Config

  // ---------------------------------------------------------------------------
  // Success exactly on complete documents, with fields copied verbatim.
  // ---------------------------------------------------------------------------

  lemma {:induction false} ParseBranchesCorrect(bs: seq<Value>)
    requires AllDicts(bs)
    ensures ParseBranches(bs).Success? <==> BranchesComplete(bs)
    ensures ParseBranches(bs).Success? ==>
      |ParseBranches(bs).value| == |bs| &&
      forall i :: 0 <= i < |bs| ==>
        ParseBranches(bs).value[i] == BranchConfig(bs[i].entries["name"], bs[i].entries["domain"])
    ensures forall j :: FirstIncompleteBranch(bs, j) ==>
      ParseBranches(bs) == Failure(ParseBranch(bs[j]).error)
  {
    if bs != [] {
      var rest := bs[1..];
      ParseBranchesCorrect(rest);
      forall j | FirstIncompleteBranch(bs, j) && j > 0
        ensures FirstIncompleteBranch(rest, j - 1)
      {
        forall i | 0 <= i < j - 1 ensures BranchComplete(rest[i]) {
          assert rest[i] == bs[i + 1];
        }
      }
      if BranchesComplete(bs) {
        assert forall i :: 0 <= i < |rest| ==> rest[i] == bs[i + 1];
      }
      if ParseBranches(bs).Success? {
        forall i | 1 <= i < |bs| ensures BranchComplete(bs[i]) {
          assert bs[i] == rest[i - 1];
        }
      }
    }
  }

  lemma ParseRepoCorrect(repo: Value)
    requires RepoShaped(repo)
    ensures ParseRepo(repo).Success? <==> RepoComplete(repo)
    ensures ParseRepo(repo).Success? ==>
      var bs := BranchList(repo);
      ParseRepo(repo).value.url == repo.entries["url"] &&
      |ParseRepo(repo).value.branches| == |bs| &&
      forall i :: 0 <= i < |bs| ==>
        ParseRepo(repo).value.branches[i] == BranchConfig(bs[i].entries["name"], bs[i].entries["domain"])
    ensures "branches" !in repo.entries ==> ParseRepo(repo) == Failure(MissingKey("branches"))
    ensures "branches" in repo.entries ==>
      forall j :: FirstIncompleteBranch(BranchList(repo), j) ==>
        ParseRepo(repo) == Failure(ParseBranch(BranchList(repo)[j]).error)
    ensures "branches" in repo.entries && BranchesComplete(BranchList(repo)) && "url" !in repo.entries ==>
      ParseRepo(repo) == Failure(MissingKey("url"))
  {
    if "branches" in repo.entries {
      ParseBranchesCorrect(BranchList(repo));
    }
  }

  lemma {:induction false} ParseReposCorrect(rs: seq<Value>)
    requires ReposShaped(rs)
    ensures ParseRepos(rs).Success? <==> ReposComplete(rs)
    ensures ParseRepos(rs).Success? ==>
      |ParseRepos(rs).value| == |rs| &&
      forall i :: 0 <= i < |rs| ==> Success(ParseRepos(rs).value[i]) == ParseRepo(rs[i])
    ensures forall j :: FirstIncompleteRepo(rs, j) ==>
      ParseRepo(rs[j]).Failure? && ParseRepos(rs) == Failure(ParseRepo(rs[j]).error)
  {
    if rs != [] {
      var rest := rs[1..];
      ParseRepoCorrect(rs[0]);
      ParseReposCorrect(rest);
      forall j | FirstIncompleteRepo(rs, j) && j > 0
        ensures FirstIncompleteRepo(rest, j - 1)
      {
        forall i | 0 <= i < j - 1 ensures RepoComplete(rest[i]) {
          assert rest[i] == rs[i + 1];
        }
      }
      if ReposComplete(rs) {
        assert forall i :: 0 <= i < |rest| ==> rest[i] == rs[i + 1];
      }
      if ParseRepos(rs).Success? {
        forall i | 1 <= i < |rs| ensures RepoComplete(rs[i]) {
          assert rs[i] == rest[i - 1];
          ParseRepoCorrect(rs[i]);
        }
      }
    }
  }

  /** `from_dict` returns a configuration exactly when every required key is
      present at every level; empty `repos` and `branches` lists are accepted. */
  lemma FromDictSucceedsIffComplete(data: Value)
    requires WellShaped(data)
    ensures ParseAppConfig(data).Success? <==> Complete(data)
  {
    if "repos" in data.entries {
      ParseReposCorrect(RepoList(data));
    }
  }

  /** On success: one `RepoConfig` per entry of `repos`, in order; each `url`
      copied unchanged; one `BranchConfig` per entry of that repository's
      `branches`, in order, with `name` and `domain` unchanged; `domain_mapping`
      and `output_dir` copied unchanged. */
  lemma FromDictCopiesVerbatim(data: Value)
    requires WellShaped(data) && ParseAppConfig(data).Success?
    ensures Complete(data)
    ensures
      var c := ParseAppConfig(data).value;
      var rs := RepoList(data);
      && c.domainMapping == data.entries["domain_mapping"]
      && c.outputDir == data.entries["output_dir"]
      && |c.repos| == |rs|
      && forall i :: 0 <= i < |rs| ==>
           && c.repos[i].url == rs[i].entries["url"]
           && |c.repos[i].branches| == |BranchList(rs[i])|
           && forall k :: 0 <= k < |BranchList(rs[i])| ==>
                var b := BranchList(rs[i])[k];
                c.repos[i].branches[k] == BranchConfig(b.entries["name"], b.entries["domain"])
  {
    FromDictSucceedsIffComplete(data);
    var c := ParseAppConfig(data).value;
    var rs := RepoList(data);
    ParseReposCorrect(rs);
    forall i | 0 <= i < |rs|
      ensures c.repos[i].url == rs[i].entries["url"]
      ensures |c.repos[i].branches| == |BranchList(rs[i])|
      ensures forall k :: 0 <= k < |BranchList(rs[i])| ==>
        var b := BranchList(rs[i])[k];
        c.repos[i].branches[k] == BranchConfig(b.entries["name"], b.entries["domain"])
    {
      ParseRepoCorrect(rs[i]);
      assert Success(c.repos[i]) == ParseRepo(rs[i]);
    }
  }

  /** On failure, the key reported is the first absent one in lookup order:
      `repos`; then per repository in order, its `branches`, each branch's
      `name` then `domain`, then its `url`; then `domain_mapping`; then
      `output_dir`. */
  lemma FromDictReportsFirstMissingKey(data: Value)
    requires WellShaped(data)
    ensures "repos" !in data.entries ==> ParseAppConfig(data) == Failure(MissingKey("repos"))
    ensures "repos" in data.entries ==>
      forall j :: FirstIncompleteRepo(RepoList(data), j) ==>
        ParseRepo(RepoList(data)[j]).Failure? &&
        ParseAppConfig(data) == Failure(ParseRepo(RepoList(data)[j]).error)
    ensures "repos" in data.entries && ReposComplete(RepoList(data)) && "domain_mapping" !in data.entries ==>
      ParseAppConfig(data) == Failure(MissingKey("domain_mapping"))
    ensures "repos" in data.entries && ReposComplete(RepoList(data)) && "domain_mapping" in data.entries &&
            "output_dir" !in data.entries ==>
      ParseAppConfig(data) == Failure(MissingKey("output_dir"))
  {
    if "repos" in data.entries {
      ParseReposCorrect(RepoList(data));
    }
  }
}
