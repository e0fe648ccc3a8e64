/** Serialising a configuration back to a document, and projecting a document
    onto the keys the loader reads. Loading ignores every other key, loading
    inverts serialising, and serialising what was loaded gives back the document
    with the unread keys removed. */
module ConfigRoundTrip {
  import opened Yaml
  import opened Config

  const BranchKeys: set<string> := {"name", "domain"}
  const RepoKeys: set<string> := {"branches", "url"}
  const TopKeys: set<string> := {"repos", "domain_mapping", "output_dir"}

  // ---------------------------------------------------------------------------
  // Serialisation: the document shape of each record.
  // ---------------------------------------------------------------------------

  function BranchToDict(b: BranchConfig): Value {
    VMap(map["name" := b.name, "domain" := b.domain])
  }

  function BranchesToList(bs: seq<BranchConfig>): (vs: seq<Value>)
    ensures |vs| == |bs| && AllDicts(vs)
  {
    if bs == [] then [] else [BranchToDict(bs[0])] + BranchesToList(bs[1..])
  }

  function RepoToDict(r: RepoConfig): (v: Value)
    ensures RepoShaped(v)
  {
    VMap(map["url" := r.url, "branches" := VList(BranchesToList(r.branches))])
  }

  function ReposToList(rs: seq<RepoConfig>): (vs: seq<Value>)
    ensures |vs| == |rs| && ReposShaped(vs)
  {
    if rs == [] then [] else [RepoToDict(rs[0])] + ReposToList(rs[1..])
  }

  function ToDict(c: AppConfig): (v: Value)
    ensures WellShaped(v)
  {
    VMap(map["repos" := VList(ReposToList(c.repos)),
             "domain_mapping" := c.domainMapping,
             "output_dir" := c.outputDir])
  }

  // ---------------------------------------------------------------------------
  // Projection onto the keys the loader reads, at every level.
  // ---------------------------------------------------------------------------

  function StripBranch(b: Value): (v: Value)
    requires b.VMap?
    ensures v.VMap? && v.entries.Keys == b.entries.Keys * BranchKeys
  {
    VMap(map k | k in b.entries && k in BranchKeys :: b.entries[k])
  }

  function StripBranches(bs: seq<Value>): (vs: seq<Value>)
    requires AllDicts(bs)
    ensures |vs| == |bs| && AllDicts(vs)
  {
    if bs == [] then [] else [StripBranch(bs[0])] + StripBranches(bs[1..])
  }

  function StripRepo(repo: Value): (v: Value)
    requires RepoShaped(repo)
    ensures RepoShaped(v) && v.entries.Keys == repo.entries.Keys * RepoKeys
  {
    VMap(map k | k in repo.entries && k in RepoKeys ::
           if k == "branches" then VList(StripBranches(BranchList(repo))) else repo.entries[k])
  }

  function StripRepos(rs: seq<Value>): (vs: seq<Value>)
    requires ReposShaped(rs)
    ensures |vs| == |rs| && ReposShaped(vs)
  {
    if rs == [] then [] else [StripRepo(rs[0])] + StripRepos(rs[1..])
  }

  function Strip(data: Value): (v: Value)
    requires WellShaped(data)
    ensures WellShaped(v) && v.entries.Keys == data.entries.Keys * TopKeys
  {
    VMap(map k | k in data.entries && k in TopKeys ::
           if k == "repos" then VList(StripRepos(RepoList(data))) else data.entries[k])
  }

  // ---------------------------------------------------------------------------
  // Unknown keys are ignored.
  // ---------------------------------------------------------------------------

  lemma {:induction false} StripBranchesParse(bs: seq<Value>)
    requires AllDicts(bs)
    ensures ParseBranches(StripBranches(bs)) == ParseBranches(bs)
  {
    if bs != [] {
      StripBranchesParse(bs[1..]);
      var s := StripBranches(bs);
      assert s[0] == StripBranch(bs[0]) && s[1..] == StripBranches(bs[1..]);
    }
  }

  lemma {:induction false} StripReposParse(rs: seq<Value>)
    requires ReposShaped(rs)
    ensures ParseRepos(StripRepos(rs)) == ParseRepos(rs)
  {
    if rs != [] {
      StripReposParse(rs[1..]);
      var s := StripRepos(rs);
      assert s[0] == StripRepo(rs[0]) && s[1..] == StripRepos(rs[1..]);
      if "branches" in rs[0].entries {
        StripBranchesParse(BranchList(rs[0]));
      }
    }
  }

  /** Only `repos`, `domain_mapping`, `output_dir`, `url`, `branches`, `name`
      and `domain` are read: dropping every other key changes nothing. */
  lemma UnknownKeysIgnored(data: Value)
    requires WellShaped(data)
    ensures ParseAppConfig(Strip(data)) == ParseAppConfig(data)
  {
    if "repos" in data.entries {
      StripReposParse(RepoList(data));
    }
  }

  /** Two documents that agree on the keys the loader reads load alike, however
      their other keys differ. */
  lemma SameRequiredKeysSameResult(d1: Value, d2: Value)
    requires WellShaped(d1) && WellShaped(d2) && Strip(d1) == Strip(d2)
    ensures ParseAppConfig(d1) == ParseAppConfig(d2)
  {
    UnknownKeysIgnored(d1);
    UnknownKeysIgnored(d2);
  }

  // ---------------------------------------------------------------------------
  // Round trips.
  // ---------------------------------------------------------------------------

  lemma {:induction false} BranchesRoundTrip(bs: seq<BranchConfig>)
    ensures ParseBranches(BranchesToList(bs)) == Success(bs)
  {
    if bs != [] {
      BranchesRoundTrip(bs[1..]);
      var vs := BranchesToList(bs);
      assert vs[0] == BranchToDict(bs[0]) && vs[1..] == BranchesToList(bs[1..]);
      assert [bs[0]] + bs[1..] == bs;
    }
  }

  lemma {:induction false} ReposRoundTrip(rs: seq<RepoConfig>)
    ensures ParseRepos(ReposToList(rs)) == Success(rs)
  {
    if rs != [] {
      ReposRoundTrip(rs[1..]);
      BranchesRoundTrip(rs[0].branches);
      var vs := ReposToList(rs);
      assert vs[0] == RepoToDict(rs[0]) && vs[1..] == ReposToList(rs[1..]);
      assert [rs[0]] + rs[1..] == rs;
    }
  }

  /** Loading a serialised configuration gives the configuration back. */
  lemma RoundTrip(c: AppConfig)
    ensures ParseAppConfig(ToDict(c)) == Success(c)
  {
    ReposRoundTrip(c.repos);
  }

  lemma {:induction false} BranchesSerializeParsed(bs: seq<Value>)
    requires AllDicts(bs) && ParseBranches(bs).Success?
    ensures BranchesToList(ParseBranches(bs).value) == StripBranches(bs)
  {
    if bs != [] {
      BranchesSerializeParsed(bs[1..]);
      var b := bs[0];
      var parsed := ParseBranches(bs).value;
      assert parsed[0] == ParseBranch(b).value && parsed[1..] == ParseBranches(bs[1..]).value;
      assert BranchToDict(ParseBranch(b).value).entries == StripBranch(b).entries;
    }
  }

  lemma {:induction false} ReposSerializeParsed(rs: seq<Value>)
    requires ReposShaped(rs) && ParseRepos(rs).Success?
    ensures ReposToList(ParseRepos(rs).value) == StripRepos(rs)
  {
    if rs != [] {
      ReposSerializeParsed(rs[1..]);
      var repo := rs[0];
      var parsed := ParseRepos(rs).value;
      assert parsed[0] == ParseRepo(repo).value && parsed[1..] == ParseRepos(rs[1..]).value;
      BranchesSerializeParsed(BranchList(repo));
      assert RepoToDict(ParseRepo(repo).value).entries == StripRepo(repo).entries;
    }
  }

  /** Serialising what was loaded reproduces the document's repository, branch
      and domain structure, without the keys the loader does not read. */
  lemma SerializeParsed(data: Value)
    requires WellShaped(data) && ParseAppConfig(data).Success?
    ensures ToDict(ParseAppConfig(data).value) == Strip(data)
  {
    ReposSerializeParsed(RepoList(data));
    assert ToDict(ParseAppConfig(data).value).entries == Strip(data).entries;
  }
}
