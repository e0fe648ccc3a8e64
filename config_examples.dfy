/** Concrete documents: the sample configuration of the test fixtures, empty
    lists, an unchecked domain, and the order in which absent keys are found. */
module ConfigExamples {
  import opened Yaml
  import opened Config

  function Branch(name: string, domain: string): Value {
    VMap(map["name" := VStr(name), "domain" := VStr(domain)])
  }

  function Repo(url: string, branches: seq<Value>): Value {
    VMap(map["url" := VStr(url), "branches" := VList(branches)])
  }

  function SampleDomainMapping(): Value {
    VMap(map["domain1" := VStr("services/domain1"), "domain2" := VStr("services/domain2")])
  }

  /** The sample configuration document of the test fixtures. */
  function SampleConfigDict(): Value {
    VMap(map[
      "repos" := VList([
        Repo("https://github.com/test/repo1.git",
             [Branch("main", "domain1"), Branch("feature", "domain2")]),
        Repo("https://github.com/test/repo2.git",
             [Branch("develop", "domain1")])
      ]),
      "domain_mapping" := SampleDomainMapping(),
      "output_dir" := VStr("/tmp/test-mono-repo")
    ])
  }

  /** The sample configuration the fixtures build by hand. */
  function SampleConfig(): AppConfig {
    AppConfig(
      [ RepoConfig(VStr("https://github.com/test/repo1.git"),
                   [ BranchConfig(VStr("main"), VStr("domain1")),
                     BranchConfig(VStr("feature"), VStr("domain2")) ]),
        RepoConfig(VStr("https://github.com/test/repo2.git"),
                   [ BranchConfig(VStr("develop"), VStr("domain1")) ]) ],
      SampleDomainMapping(),
      VStr("/tmp/test-mono-repo"))
  }

  /** Loading the sample document yields the sample configuration: two
      repositories, with two and one branches. */
  lemma SampleConfigDictParses()
    ensures WellShaped(SampleConfigDict())
    ensures ParseAppConfig(SampleConfigDict()) == Success(SampleConfig())
    ensures
      var loaded := ParseAppConfig(SampleConfigDict()).value;
      |loaded.repos| == 2 && |loaded.repos[0].branches| == 2 && |loaded.repos[1].branches| == 1
  {
    var c := SampleConfig();
    var main, feature := Branch("main", "domain1"), Branch("feature", "domain2");
    var develop := Branch("develop", "domain1");
    var r1 := Repo("https://github.com/test/repo1.git", [main, feature]);
    var r2 := Repo("https://github.com/test/repo2.git", [develop]);
    var b1, b2 := c.repos[0].branches, c.repos[1].branches;
    assert [main, feature][1..] == [feature] && [feature][1..] == [] && [develop][1..] == [];
    assert [b1[1]] + [] == [b1[1]] && [b1[0]] + [b1[1]] == b1 && [b2[0]] + [] == b2;
    assert ParseBranches([feature]) == Success([b1[1]]);
    assert ParseBranches([main, feature]) == Success(b1);
    assert ParseBranches([develop]) == Success(b2);
    assert [r1, r2][1..] == [r2] && [r2][1..] == [];
    assert [c.repos[1]] + [] == [c.repos[1]] && [c.repos[0]] + [c.repos[1]] == c.repos;
    assert ParseRepos([r2]) == Success([c.repos[1]]);
    assert ParseRepos([r1, r2]) == Success(c.repos);
  }

  /** Empty `repos` and empty `branches` lists are accepted. */
  lemma EmptyListsAccepted(url: Value, domainMapping: Value, outputDir: Value)
    ensures
      var noRepos := VMap(map["repos" := VList([]), "domain_mapping" := domainMapping, "output_dir" := outputDir]);
      WellShaped(noRepos) && ParseAppConfig(noRepos) == Success(AppConfig([], domainMapping, outputDir))
    ensures
      var repo := VMap(map["url" := url, "branches" := VList([])]);
      var noBranches := VMap(map["repos" := VList([repo]), "domain_mapping" := domainMapping, "output_dir" := outputDir]);
      WellShaped(noBranches) &&
      ParseAppConfig(noBranches) == Success(AppConfig([RepoConfig(url, [])], domainMapping, outputDir))
  {
    var repo := VMap(map["url" := url, "branches" := VList([])]);
    assert [repo][1..] == [] && [RepoConfig(url, [])] + [] == [RepoConfig(url, [])];
    assert ParseRepos([repo]) == Success([RepoConfig(url, [])]);
  }

  /** A branch's domain need not appear in `domain_mapping`, and neither value
      is checked to be a string. */
  lemma DomainNotCheckedAgainstMapping(name: Value, domain: Value, url: Value, outputDir: Value)
    ensures
      var branch := VMap(map["name" := name, "domain" := domain]);
      var repo := VMap(map["url" := url, "branches" := VList([branch])]);
      var doc := VMap(map["repos" := VList([repo]), "domain_mapping" := VMap(map[]), "output_dir" := outputDir]);
      WellShaped(doc) &&
      ParseAppConfig(doc) == Success(AppConfig([RepoConfig(url, [BranchConfig(name, domain)])], VMap(map[]), outputDir))
  {
    var branch := VMap(map["name" := name, "domain" := domain]);
    var repo := VMap(map["url" := url, "branches" := VList([branch])]);
    assert [branch][1..] == [] && [BranchConfig(name, domain)] + [] == [BranchConfig(name, domain)];
    assert ParseBranches([branch]) == Success([BranchConfig(name, domain)]);
    var rc := RepoConfig(url, [BranchConfig(name, domain)]);
    assert [repo][1..] == [] && [rc] + [] == [rc];
    assert ParseRepos([repo]) == Success([RepoConfig(url, [BranchConfig(name, domain)])]);
  }

  /** A document lacking both the second repository's `url` and the top-level
      `output_dir`: `url` is reported, being looked up first. */
  lemma FirstMissingKeyReported()
    ensures
      var repo2 := VMap(map["branches" := VList([Branch("develop", "domain1")])]);
      var doc := VMap(map[
        "repos" := VList([Repo("https://github.com/test/repo1.git", [Branch("main", "domain1")]), repo2]),
        "domain_mapping" := SampleDomainMapping()]);
      WellShaped(doc) && ParseAppConfig(doc) == Failure(MissingKey("url"))
  {
  }
}
