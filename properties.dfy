/**
 * What the adapter promises, stated over the runs in `Walks`: which
 * requests an operation may send, what every emitted record looks like,
 * which failures are contained and which discard earlier results.
 */
module Properties {
  import opened Wrappers
  import opened Strings
  import opened JsonModel
  import opened Types
  import opened Auth
  import opened BaseUrl
  import opened UrlHost
  import opened RepoNames
  import opened Walks

  /** `log` is a prefix of `log2`: requests are only ever added. */
  predicate Extends<T(==)>(log: seq<T>, log2: seq<T>) {
    |log| <= |log2| && log2[..|log|] == log
  }

  /** The configuration carries a usable token, so every `Fetch` sends its request. */
  predicate HasToken(cfg: Config) {
    AuthHeaders(cfg.token).Success?
  }

  // ---------------------------------------------------------------------
  // get_user
  // ---------------------------------------------------------------------

  /** Without a token no request is sent and `get_user` reports an invalid token. */
  lemma UserWithoutToken(cfg: Config, log: seq<Request>)
    requires cfg.token.None? || cfg.token == Some([])
    ensures UserRun(cfg, log) == Run(Failure(AuthenticationError(InvalidTokenMessage)), log)
  {
  }

  /**
   * `get_user` tries at most three requests (two on the default base, which
   * skips connection data); it fails only with the invalid-token error, and
   * then, given a token, its last request was the token probe.
   */
  lemma UserTiers(cfg: Config, log: seq<Request>)
    ensures var u := UserRun(cfg, log);
            Extends(log, u.log) && |u.log| <= |log| + 3
            && (cfg.baseUrl == DefaultBase ==> |u.log| <= |log| + 2)
            && (u.value.Failure? ==> u.value.error == AuthenticationError(InvalidTokenMessage))
            && (u.value.Failure? && HasToken(cfg) ==> |u.log| > |log| && u.log[|u.log| - 1] == ProbeRequest(cfg.baseUrl))
  {
  }

  /**
   * On a custom base, connection data whose `authenticatedUser` is a
   * non-empty dict gives the user at once: the masked hash of its id, and
   * its display name as login, name and email.
   */
  lemma UserFromConnectionData(cfg: Config, log: seq<Request>, data: Json, display: string)
    requires HasToken(cfg) && cfg.baseUrl != DefaultBase
    requires ReplyAt(cfg.replies, |log|) == Some(data) && data.JObj?
    requires var au := GetOr(data.fields, "authenticatedUser", JObj(map[]));
             au.JObj? && au.fields != map[]
             && GetOr(au.fields, "providerDisplayName", JStr([])) == JStr(display)
             && !GetOr(au.fields, "id", JStr([])).JArr? && !GetOr(au.fields, "id", JStr([])).JObj?
    ensures var au := GetOr(data.fields, "authenticatedUser", JObj(map[]));
            var id := cfg.hash(GetOr(au.fields, "id", JStr([]))) % IdModulus;
            UserRun(cfg, log) == Run(Success(User(id, display, [], display, display)), log + [ConnectionData(cfg.baseUrl)])
  {
  }

  /**
   * On the default base, a profile with string email and display name and a
   * readable avatar path gives the user after that one request: the masked
   * hash of its id, the email as login and email, that avatar.
   */
  lemma UserFromProfile(cfg: Config, log: seq<Request>, data: Json, email: string, name: string, avatar: string)
    requires HasToken(cfg) && cfg.baseUrl == DefaultBase
    requires ReplyAt(cfg.replies, |log|) == Some(data) && data.JObj? && AvatarUrl(data.fields) == Some(avatar)
    requires GetOr(data.fields, "emailAddress", JStr([])) == JStr(email)
    requires GetOr(data.fields, "displayName", JStr([])) == JStr(name)
    requires !GetOr(data.fields, "id", JStr([])).JArr? && !GetOr(data.fields, "id", JStr([])).JObj?
    ensures var id := cfg.hash(GetOr(data.fields, "id", JStr([]))) % IdModulus;
            UserRun(cfg, log) == Run(Success(User(id, email, avatar, name, email)), log + [Profile])
  {
  }

  /** The avatar is the string at `coreAttributes.Avatar.value.value`. */
  lemma AvatarFromCoreAttributes(profile: map<string, Json>, core: map<string, Json>, avatar: map<string, Json>,
                                 value: map<string, Json>, url: string)
    requires GetOr(profile, "coreAttributes", JObj(map[])) == JObj(core)
    requires GetOr(core, "Avatar", JObj(map[])) == JObj(avatar)
    requires GetOr(avatar, "value", JObj(map[])) == JObj(value)
    requires GetOr(value, "value", JStr([])) == JStr(url)
    ensures AvatarUrl(profile) == Some(url)
  {
  }

  /** Without `coreAttributes` every level defaults to `{}` and the avatar is the empty string. */
  lemma AvatarDefaultsEmpty(profile: map<string, Json>)
    requires "coreAttributes" !in profile
    ensures AvatarUrl(profile) == Some([])
  {
  }

  /** A token probe that answers is enough: `get_user` then returns the fixed fallback user. */
  lemma UserFallsBackToProbe(cfg: Config, log: seq<Request>)
    requires HasToken(cfg) && cfg.baseUrl == DefaultBase
    requires ReplyAt(cfg.replies, |log|).None? && ReplyAt(cfg.replies, |log| + 1).Some?
    ensures UserRun(cfg, log) == Run(Success(FallbackUser), log + [Profile, ProbeAccounts(cfg.baseUrl)])
  {
  }

  /**
   * On a custom base, when connection data and the profile both fail and
   * the project probe answers, `get_user` returns the fixed fallback user
   * after exactly those three requests.
   */
  lemma CustomBaseFallsBackToProbe(cfg: Config, log: seq<Request>)
    requires HasToken(cfg) && cfg.baseUrl != DefaultBase
    requires ReplyAt(cfg.replies, |log|).None? && ReplyAt(cfg.replies, |log| + 1).None?
    requires ReplyAt(cfg.replies, |log| + 2).Some?
    ensures UserRun(cfg, log)
            == Run(Success(FallbackUser), log + [ConnectionData(cfg.baseUrl), Profile, ProbeProjects(cfg.baseUrl)])
  {
    assert log + [ConnectionData(cfg.baseUrl)] + [Profile] + [ProbeProjects(cfg.baseUrl)]
           == log + [ConnectionData(cfg.baseUrl), Profile, ProbeProjects(cfg.baseUrl)];
  }

  // ---------------------------------------------------------------------
  // get_repositories / _process_projects
  // ---------------------------------------------------------------------

  /** A repository as the walks build it: a 31-bit hashed id, private, Azure DevOps. */
  predicate HashedPrivate(r: Repository) {
    r.id.Hashed? && 0 <= r.id.n < IdModulus && !r.isPublic && r.provider == AzureDevOps
  }

  /** A walk repository named under the organisation display name `org`. */
  predicate WalkRepository(r: Repository, org: string) {
    HashedPrivate(r) && StartsWith(r.fullName, org + "/")
  }

  /** The entries of one project listing: at most one per entry, each named `org/project/...`. */
  lemma {:induction false} RepoEntriesShape(cfg: Config, repos: seq<Json>, i: nat, orgName: string, projectName: string)
    requires i <= |repos|
    ensures var es := RepoEntriesFrom(cfg, repos, i, orgName, projectName);
            |es| <= |repos| - i
            && forall r :: r in es ==> WalkRepository(r, orgName)
                                       && StartsWith(r.fullName, orgName + "/" + projectName + "/")
    decreases |repos| - i
  {
    if i < |repos| {
      RepoEntriesShape(cfg, repos, i + 1, orgName, projectName);
      match RepoEntry(cfg, repos[i], orgName, projectName)
      case None =>
      case Some(r) =>
        var name := Show(GetOr(repos[i].fields, "name", JStr([]))).value;
        var prefix := orgName + "/" + projectName + "/";
        assert r.fullName == prefix + name;
        assert r.fullName[..|prefix|] == prefix;
        assert r.fullName[..|orgName + "/"|] == orgName + "/";
    }
  }

  /**
   * One entry of a repository listing builds exactly when it is a dict
   * whose `id` is hashable and whose `name` renders; the repository is then
   * `org/project/name` with the masked hash of that id, private.
   */
  lemma RepoEntryOfListing(cfg: Config, repo: Json, orgName: string, projectName: string)
    ensures var e := RepoEntry(cfg, repo, orgName, projectName);
            e.Some? <==> repo.JObj? && !GetOr(repo.fields, "id", JStr([])).JArr? && !GetOr(repo.fields, "id", JStr([])).JObj?
                         && Show(GetOr(repo.fields, "name", JStr([]))).Some?
    ensures var e := RepoEntry(cfg, repo, orgName, projectName);
            e.Some? ==> e.value == Repository(Hashed(cfg.hash(GetOr(repo.fields, "id", JStr([]))) % IdModulus),
                                              FullName(orgName, projectName, Show(GetOr(repo.fields, "name", JStr([]))).value),
                                              AzureDevOps, false)
  {
  }

  /**
   * The repositories of one listing are its entries' repositories in
   * listing order, one per entry, up to the first entry that raises: all
   * of them exactly when no entry raises.
   */
  lemma {:induction false} RepoEntriesInOrder(cfg: Config, repos: seq<Json>, i: nat, orgName: string, projectName: string)
    requires i <= |repos|
    ensures var es := RepoEntriesFrom(cfg, repos, i, orgName, projectName);
            |es| <= |repos| - i
            && (forall k :: 0 <= k < |es| ==> RepoEntry(cfg, repos[i + k], orgName, projectName) == Some(es[k]))
            && (|es| < |repos| - i ==> RepoEntry(cfg, repos[i + |es|], orgName, projectName).None?)
    decreases |repos| - i
  {
    if i < |repos| {
      RepoEntriesInOrder(cfg, repos, i + 1, orgName, projectName);
      var es := RepoEntriesFrom(cfg, repos, i, orgName, projectName);
      var rest := RepoEntriesFrom(cfg, repos, i + 1, orgName, projectName);
      if RepoEntry(cfg, repos[i], orgName, projectName).Some? {
        assert es == [RepoEntry(cfg, repos[i], orgName, projectName).value] + rest;
        forall k | 0 < k < |es|
          ensures RepoEntry(cfg, repos[i + k], orgName, projectName) == Some(es[k])
        {
          assert es[k] == rest[k - 1] && i + k == (i + 1) + (k - 1);
        }
        if |es| < |repos| - i {
          assert i + |es| == (i + 1) + |rest|;
        }
      }
    }
  }

  /** A listing whose every entry builds gives one repository per entry. */
  lemma AllRepoEntriesKept(cfg: Config, repos: seq<Json>, orgName: string, projectName: string)
    requires forall k :: 0 <= k < |repos| ==> RepoEntry(cfg, repos[k], orgName, projectName).Some?
    ensures var es := RepoEntriesFrom(cfg, repos, 0, orgName, projectName);
            |es| == |repos| && forall k :: 0 <= k < |repos| ==> RepoEntry(cfg, repos[k], orgName, projectName) == Some(es[k])
  {
    RepoEntriesInOrder(cfg, repos, 0, orgName, projectName);
  }

  /**
   * A project with a truthy id and name whose repository listing answers
   * appends that listing's repositories after what the list holds, then
   * the walk goes on with the next project.
   */
  lemma ListedProjectAppends(cfg: Config, orgUrl: string, projects: seq<Json>, i: nat, acc: Acc<Repository>,
                             projectName: string, listing: Json, repos: seq<Json>)
    requires i < |projects| && HasToken(cfg)
    requires projects[i].JObj? && Truthy(Lookup(projects[i].fields, "id"))
    requires Truthy(Lookup(projects[i].fields, "name")) && Show(Lookup(projects[i].fields, "name")) == Some(projectName)
    requires ReplyAt(cfg.replies, |acc.log|) == Some(listing) && ListField(listing, "value") == Some(repos)
    ensures ProjectsLoop(cfg, orgUrl, projects, i, acc)
            == ProjectsLoop(cfg, orgUrl, projects, i + 1,
                            Acc(acc.items + RepoEntriesFrom(cfg, repos, 0, OrgDisplayName(cfg.baseUrl, orgUrl), projectName),
                                acc.log + [ListRepositories(orgUrl, projectName)], false))
  {
  }

  /** Every repository `_process_projects` appends is named under the organisation's display name. */
  lemma {:induction false} ProjectsLoopShape(cfg: Config, orgUrl: string, projects: seq<Json>, i: nat, acc: Acc<Repository>)
    requires i <= |projects|
    requires forall r :: r in acc.items ==> WalkRepository(r, OrgDisplayName(cfg.baseUrl, orgUrl))
    ensures forall r :: r in ProjectsLoop(cfg, orgUrl, projects, i, acc).items
                        ==> WalkRepository(r, OrgDisplayName(cfg.baseUrl, orgUrl))
    decreases |projects| - i
  {
    if i < |projects| {
      match ProjectStep(cfg, acc.log, orgUrl, projects[i])
      case None =>
      case Some(step) =>
        var org := OrgDisplayName(cfg.baseUrl, orgUrl);
        var project := projects[i];
        var name := Lookup(project.fields, "name");
        if Truthy(Lookup(project.fields, "id")) && Truthy(name) {
          var f := Fetch(cfg, acc.log, ListRepositories(orgUrl, Show(name).value));
          if f.value.Some? && ListField(f.value.value, "value").Some? {
            RepoEntriesShape(cfg, ListField(f.value.value, "value").value, 0, org, Show(name).value);
          }
        }
        ProjectsLoopShape(cfg, orgUrl, projects, i + 1, Acc(acc.items + step.value, step.log, false));
    }
  }

  /** A project that lacks a truthy id or name is skipped: no request, nothing appended, the walk goes on. */
  lemma ProjectsWithoutIdOrNameSkipped(cfg: Config, orgUrl: string, projects: seq<Json>, i: nat, acc: Acc<Repository>)
    requires i < |projects| && projects[i].JObj?
    requires !Truthy(Lookup(projects[i].fields, "id")) || !Truthy(Lookup(projects[i].fields, "name"))
    ensures ProjectsLoop(cfg, orgUrl, projects, i, acc) == ProjectsLoop(cfg, orgUrl, projects, i + 1, acc.(raised := false))
  {
    assert acc.items + [] == acc.items;
  }

  /** `_process_projects` appends after whatever the caller's list already holds, and never reorders it. */
  lemma {:induction false} ProjectsLoopKeepsEarlier(cfg: Config, orgUrl: string, projects: seq<Json>, i: nat,
                                                    pre: seq<Repository>, items: seq<Repository>, log: seq<Request>)
    requires i <= |projects|
    ensures var a := ProjectsLoop(cfg, orgUrl, projects, i, Acc(items, log, false));
            ProjectsLoop(cfg, orgUrl, projects, i, Acc(pre + items, log, false)) == Acc(pre + a.items, a.log, a.raised)
    decreases |projects| - i
  {
    if i < |projects| {
      match ProjectStep(cfg, log, orgUrl, projects[i])
      case None =>
      case Some(step) =>
        ConcatAssoc(pre, items, step.value);
        ProjectsLoopKeepsEarlier(cfg, orgUrl, projects, i + 1, pre, items + step.value, step.log);
    }
  }

  /**
   * A project whose repository listing fails contributes nothing and the
   * walk goes on with the next project: the failure stays inside that
   * project's handler.
   */
  lemma FailedProjectContinues(cfg: Config, orgUrl: string, projects: seq<Json>, i: nat, acc: Acc<Repository>,
                               projectName: string)
    requires i < |projects| && HasToken(cfg)
    requires projects[i].JObj?
    requires Truthy(Lookup(projects[i].fields, "id")) && Show(Lookup(projects[i].fields, "name")) == Some(projectName)
    requires Truthy(Lookup(projects[i].fields, "name"))
    requires ReplyAt(cfg.replies, |acc.log|).None?
    ensures ProjectsLoop(cfg, orgUrl, projects, i, acc)
            == ProjectsLoop(cfg, orgUrl, projects, i + 1,
                            Acc(acc.items, acc.log + [ListRepositories(orgUrl, projectName)], false))
  {
    assert acc.items + [] == acc.items;
  }

  /**
   * On the default base, an organisation whose project listing fails
   * contributes nothing and the walk goes on with the next organisation:
   * the failure stays inside that organisation's handler.
   */
  lemma FailedOrganizationContinues(cfg: Config, orgs: seq<Json>, i: nat, acc: Acc<Repository>, orgName: string)
    requires i < |orgs| && HasToken(cfg)
    requires orgs[i].JObj? && Truthy(Lookup(orgs[i].fields, "accountName"))
    requires Show(Lookup(orgs[i].fields, "accountName")) == Some(orgName)
    requires ReplyAt(cfg.replies, |acc.log|).None?
    ensures RepoOrgsLoop(cfg, orgs, i, acc)
            == RepoOrgsLoop(cfg, orgs, i + 1, Acc(acc.items, acc.log + [ListProjects(cfg.baseUrl + "/" + orgName)], false))
  {
    assert acc.items + [] == acc.items;
  }

  /**
   * On the default base, an organisation with a truthy, renderable
   * `accountName` appends its repositories after what the list holds, and
   * the walk goes on with the next organisation.
   */
  lemma ListedOrganizationAppends(cfg: Config, orgs: seq<Json>, i: nat, acc: Acc<Repository>, orgName: string)
    requires i < |orgs| && orgs[i].JObj? && Truthy(Lookup(orgs[i].fields, "accountName"))
    requires Show(Lookup(orgs[i].fields, "accountName")) == Some(orgName)
    ensures var o := OrgReposRun(cfg, acc.log, cfg.baseUrl + "/" + orgName);
            RepoOrgsLoop(cfg, orgs, i, acc) == RepoOrgsLoop(cfg, orgs, i + 1, Acc(acc.items + o.value, o.log, false))
  {
  }

  /** Without a token `get_repositories` sends nothing and returns no repositories. */
  lemma NoTokenNoRepositories(cfg: Config, log: seq<Request>)
    requires !HasToken(cfg)
    ensures RepositoriesRun(cfg, log) == Run([], log)
  {
  }

  /** On the default base, a failed account listing makes `get_repositories` return `[]` after that one request. */
  lemma FailedAccountListingEmpty(cfg: Config, log: seq<Request>)
    requires cfg.baseUrl == DefaultBase && HasToken(cfg)
    requires ReplyAt(cfg.replies, |log|).None?
    ensures RepositoriesRun(cfg, log) == Run([], log + [ListAccounts(cfg.baseUrl)])
  {
  }

  /** On the default base, one organisation entry that is not a dict makes the organisation loop raise. */
  lemma {:induction false} NonDictOrganizationRaises(cfg: Config, orgs: seq<Json>, i: nat, acc: Acc<Repository>, k: nat)
    requires i <= k < |orgs| && !orgs[k].JObj?
    ensures RepoOrgsLoop(cfg, orgs, i, acc).raised
    decreases |orgs| - i
  {
    if i < k {
      match RepoOrgStep(cfg, acc.log, orgs[i])
      case None =>
      case Some(step) => NonDictOrganizationRaises(cfg, orgs, i + 1, Acc(acc.items + step.value, step.log, false), k);
    }
  }

  /**
   * On the default base, an organisation entry that is not a dict escapes
   * to the outer handler of `get_repositories`, which discards every
   * repository collected so far.
   */
  lemma MalformedOrganizationDiscardsRepositories(cfg: Config, log: seq<Request>, listing: Json, k: nat)
    requires cfg.baseUrl == DefaultBase && HasToken(cfg)
    requires ReplyAt(cfg.replies, |log|) == Some(listing)
    requires ListField(listing, "value").Some?
    requires k < |ListField(listing, "value").value| && !ListField(listing, "value").value[k].JObj?
    ensures RepositoriesRun(cfg, log).value == []
  {
    NonDictOrganizationRaises(cfg, ListField(listing, "value").value, 0, Acc([], log + [ListAccounts(cfg.baseUrl)], false), k);
  }

  /** Every repository the organisation loop of `get_repositories` appends has a 31-bit hashed id and is private. */
  lemma {:induction false} RepoOrgsLoopShape(cfg: Config, orgs: seq<Json>, i: nat, acc: Acc<Repository>)
    requires i <= |orgs|
    requires forall r :: r in acc.items ==> HashedPrivate(r)
    ensures forall r :: r in RepoOrgsLoop(cfg, orgs, i, acc).items ==> HashedPrivate(r)
    decreases |orgs| - i
  {
    if i < |orgs| {
      match RepoOrgStep(cfg, acc.log, orgs[i])
      case None =>
      case Some(step) =>
        var name := Lookup(orgs[i].fields, "accountName");
        if Truthy(name) {
          var orgUrl := cfg.baseUrl + "/" + Show(name).value;
          var f := Fetch(cfg, acc.log, ListProjects(orgUrl));
          if f.value.Some? && ListField(f.value.value, "value").Some? {
            ProjectsLoopShape(cfg, orgUrl, ListField(f.value.value, "value").value, 0, Acc([], f.log, false));
          }
        }
        RepoOrgsLoopShape(cfg, orgs, i + 1, Acc(acc.items + step.value, step.log, false));
    }
  }

  /**
   * `get_repositories` never raises; every repository it returns carries a
   * 31-bit hashed id and is private, and on a custom base every name starts
   * with the base's own organisation name.
   */
  lemma RepositoriesShape(cfg: Config, log: seq<Request>)
    ensures forall r :: r in RepositoriesRun(cfg, log).value ==> HashedPrivate(r)
    ensures cfg.baseUrl != DefaultBase ==>
              forall r :: r in RepositoriesRun(cfg, log).value ==> WalkRepository(r, OrgDisplayName(cfg.baseUrl, cfg.baseUrl))
  {
    if cfg.baseUrl != DefaultBase {
      var f := Fetch(cfg, log, ListProjects(cfg.baseUrl));
      if f.value.Some? && ListField(f.value.value, "value").Some? {
        ProjectsLoopShape(cfg, cfg.baseUrl, ListField(f.value.value, "value").value, 0, Acc([], f.log, false));
      }
    } else {
      var f := Fetch(cfg, log, ListAccounts(cfg.baseUrl));
      if f.value.Some? && ListField(f.value.value, "value").Some? {
        RepoOrgsLoopShape(cfg, ListField(f.value.value, "value").value, 0, Acc([], f.log, false));
      }
    }
  }

  // ---------------------------------------------------------------------
  // Work-item repository association
  // ---------------------------------------------------------------------

  /**
   * A commit URL whose first "repositories" segment is followed by `id`
   * yields `id`: the segments before it are left alone and those after it
   * are ignored.
   */
  lemma {:induction false} CommitUrlNamesRepository(prefix: string, id: string, rest: string)
    requires "repositories" !in Split(prefix, '/') && '/' !in id
    ensures CommitRepositoryId(prefix + "/repositories/" + id + "/" + rest) == Some(id)
  {
    var parts := Split(prefix + "/repositories/" + id + "/" + rest, '/');
    SplitCommitUrl(prefix, id, rest);
    var k := |Split(prefix, '/')|;
    assert parts[..k] == Split(prefix, '/');
    assert parts[k] == "repositories" && parts[k + 1] == id;
  }

  /** The segments of a commit URL around its "repositories" segment. */
  lemma SplitCommitUrl(prefix: string, id: string, rest: string)
    requires '/' !in id
    ensures Split(prefix + "/repositories/" + id + "/" + rest, '/')
            == Split(prefix, '/') + (["repositories"] + ([id] + Split(rest, '/')))
  {
    var tail := "repositories" + ['/'] + (id + ['/'] + rest);
    assert prefix + "/repositories/" + id + "/" + rest == prefix + ['/'] + tail;
    SplitConcat(prefix, tail, '/');
    SplitRepositoriesSegment(id, rest);
  }

  /** The segments of `repositories/<id>/<rest>`. */
  lemma SplitRepositoriesSegment(id: string, rest: string)
    requires '/' !in id
    ensures Split("repositories" + ['/'] + (id + ['/'] + rest), '/') == ["repositories"] + ([id] + Split(rest, '/'))
  {
    SplitConcat("repositories", id + ['/'] + rest, '/');
    SplitConcat(id, rest, '/');
    SplitNoSeparator("repositories", '/');
    SplitNoSeparator(id, '/');
  }

  /**
   * The relation scan only looks repositories up by id in the work item's
   * own organisation and project, at most once per relation, and a name it
   * reports is non-empty.
   */
  lemma ScanRequests(cfg: Config, log: seq<Request>, orgUrl: string, projectName: string,
                     relations: seq<Json>, i: nat)
    requires i <= |relations|
    ensures var s := ScanRelations(cfg, log, orgUrl, projectName, relations, i);
            Extends(log, s.log) && |s.log| <= |log| + |relations| - i
            && (forall q :: q in s.log[|log|..] ==> q.RepositoryById? && q.orgUrl == orgUrl && q.project == projectName)
            && (s.value.Found? ==> Truthy(s.value.name))
  {
    ScanExtends(cfg, log, orgUrl, projectName, relations, i);
    ScanLookups(cfg, log, orgUrl, projectName, relations, i);
    ScanFound(cfg, log, orgUrl, projectName, relations, i);
  }

  /** The relation scan only adds requests, at most one per relation. */
  lemma {:induction false} ScanExtends(cfg: Config, log: seq<Request>, orgUrl: string, projectName: string,
                                       relations: seq<Json>, i: nat)
    requires i <= |relations|
    ensures var s := ScanRelations(cfg, log, orgUrl, projectName, relations, i);
            Extends(log, s.log) && |s.log| <= |log| + |relations| - i
    decreases |relations| - i
  {
    if i < |relations| {
      match RelationTarget(relations[i])
      case LinkRaised =>
      case NotALink => ScanExtends(cfg, log, orgUrl, projectName, relations, i + 1);
      case Candidate(repoId) =>
        var n := RepositoryNameFromIdRun(cfg, log, orgUrl, projectName, repoId);
        if !Truthy(n.value) {
          ScanExtends(cfg, n.log, orgUrl, projectName, relations, i + 1);
          var s := ScanRelations(cfg, n.log, orgUrl, projectName, relations, i + 1);
          assert s.log[..|log|] == s.log[..|n.log|][..|log|];
        }
    }
  }

  /** Every request the relation scan adds is a lookup by id in the given organisation and project. */
  lemma {:induction false} ScanLookups(cfg: Config, log: seq<Request>, orgUrl: string, projectName: string,
                                       relations: seq<Json>, i: nat)
    requires i <= |relations|
    ensures var s := ScanRelations(cfg, log, orgUrl, projectName, relations, i);
            |log| <= |s.log|
            && forall q :: q in s.log[|log|..] ==> q.RepositoryById? && q.orgUrl == orgUrl && q.project == projectName
    decreases |relations| - i
  {
    if i < |relations| {
      match RelationTarget(relations[i])
      case LinkRaised =>
      case NotALink => ScanLookups(cfg, log, orgUrl, projectName, relations, i + 1);
      case Candidate(repoId) =>
        var n := RepositoryNameFromIdRun(cfg, log, orgUrl, projectName, repoId);
        assert n.log[|log|..] == [] || n.log[|log|..] == [RepositoryById(orgUrl, projectName, repoId)];
        if !Truthy(n.value) {
          ScanLookups(cfg, n.log, orgUrl, projectName, relations, i + 1);
          ScanExtends(cfg, n.log, orgUrl, projectName, relations, i + 1);
          var s := ScanRelations(cfg, n.log, orgUrl, projectName, relations, i + 1);
          SuffixSplits(log, n.log, s.log);
        }
    }
  }

  /** What a log gained over two extensions is what it gained in each, in order. */
  lemma SuffixSplits<T>(log: seq<T>, mid: seq<T>, fin: seq<T>)
    requires Extends(log, mid) && Extends(mid, fin)
    ensures fin[|log|..] == mid[|log|..] + fin[|mid|..]
  {
    assert fin[..|mid|] == mid;
  }

  /** A name the relation scan reports is truthy. */
  lemma {:induction false} ScanFound(cfg: Config, log: seq<Request>, orgUrl: string, projectName: string,
                                     relations: seq<Json>, i: nat)
    requires i <= |relations|
    ensures var s := ScanRelations(cfg, log, orgUrl, projectName, relations, i);
            s.value.Found? ==> Truthy(s.value.name)
    decreases |relations| - i
  {
    if i < |relations| {
      match RelationTarget(relations[i])
      case LinkRaised =>
      case NotALink => ScanFound(cfg, log, orgUrl, projectName, relations, i + 1);
      case Candidate(repoId) =>
        var n := RepositoryNameFromIdRun(cfg, log, orgUrl, projectName, repoId);
        if !Truthy(n.value) {
          ScanFound(cfg, n.log, orgUrl, projectName, relations, i + 1);
        }
    }
  }


  /** Relations that are not commit links send nothing and find nothing. */
  lemma {:induction false} NoCommitLinkNoLookup(cfg: Config, log: seq<Request>, orgUrl: string, projectName: string,
                                                relations: seq<Json>, i: nat)
    requires i <= |relations|
    requires forall k :: i <= k < |relations| ==> RelationTarget(relations[k]) == NotALink
    ensures ScanRelations(cfg, log, orgUrl, projectName, relations, i) == Run(NotFound, log)
    decreases |relations| - i
  {
    if i < |relations| {
      NoCommitLinkNoLookup(cfg, log, orgUrl, projectName, relations, i + 1);
    }
  }

  /**
   * A lookup that yields no name moves the scan on to the next relation:
   * the request stays in the log and nothing else changes.
   */
  lemma FailedLookupMovesOn(cfg: Config, log: seq<Request>, orgUrl: string, projectName: string,
                            relations: seq<Json>, i: nat, repoId: string)
    requires i < |relations| && HasToken(cfg)
    requires RelationTarget(relations[i]) == Candidate(repoId)
    requires ReplyAt(cfg.replies, |log|).None?
    ensures ScanRelations(cfg, log, orgUrl, projectName, relations, i)
            == ScanRelations(cfg, log + [RepositoryById(orgUrl, projectName, repoId)], orgUrl, projectName, relations, i + 1)
  {
  }

  /** Relations that are not commit links are passed over without a request. */
  lemma {:induction false} ScanSkipsNonLinks(cfg: Config, log: seq<Request>, orgUrl: string, projectName: string,
                                             relations: seq<Json>, j: nat, i: nat)
    requires j <= i <= |relations|
    requires forall k :: j <= k < i ==> RelationTarget(relations[k]) == NotALink
    ensures ScanRelations(cfg, log, orgUrl, projectName, relations, j)
            == ScanRelations(cfg, log, orgUrl, projectName, relations, i)
    decreases i - j
  {
    if j < i {
      ScanSkipsNonLinks(cfg, log, orgUrl, projectName, relations, j + 1, i);
    }
  }

  /**
   * The commit-link tier decides: when the first commit link's repository
   * lookup names a repository, that repository is the association, after
   * that one lookup and without listing the project's repositories.
   */
  lemma CommitLinkWins(cfg: Config, log: seq<Request>, workItem: map<string, Json>, orgUrl: string,
                       projectName: string, orgName: string, relations: seq<Json>, i: nat, repoId: string, reply: Json)
    requires Items(GetOr(workItem, "relations", JArr([]))) == Some(relations)
    requires i < |relations| && forall k :: 0 <= k < i ==> RelationTarget(relations[k]) == NotALink
    requires RelationTarget(relations[i]) == Candidate(repoId)
    requires HasToken(cfg) && ReplyAt(cfg.replies, |log|) == Some(reply)
    requires reply.JObj? && Truthy(Lookup(reply.fields, "name"))
    ensures AssociationRun(cfg, log, workItem, orgUrl, projectName, orgName)
            == Run(RepoLabel(orgName, projectName, Lookup(reply.fields, "name")),
                   log + [RepositoryById(orgUrl, projectName, repoId)])
  {
    ScanSkipsNonLinks(cfg, log, orgUrl, projectName, relations, 0, i);
  }

  /** The truthy `name` fields of `repos`, in order; entries that are not dicts contribute nothing. */
  function TruthyNames(repos: seq<Json>): seq<Json> {
    if repos == [] then []
    else
      var name := if repos[0].JObj? then Lookup(repos[0].fields, "name") else JNull;
      (if Truthy(name) then [name] else []) + TruthyNames(repos[1..])
  }

  /** The fallback loop raises exactly when one of the remaining entries is not a dict. */
  lemma {:induction false} RepoNamesRaise(repos: seq<Json>, i: nat, names: seq<Json>)
    requires i <= |repos|
    ensures RepoNamesFrom(repos, i, names).None? <==> exists k :: i <= k < |repos| && !repos[k].JObj?
    decreases |repos| - i
  {
    if i < |repos| && repos[i].JObj? {
      var name := Lookup(repos[i].fields, "name");
      RepoNamesRaise(repos, i + 1, if Truthy(name) then names + [name] else names);
    }
  }

  /**
   * The fallback loop collects, after the names it already holds, the
   * truthy names of the remaining entries in listing order.
   */
  lemma {:induction false} RepoNamesInOrder(repos: seq<Json>, i: nat, names: seq<Json>)
    requires i <= |repos|
    ensures var r := RepoNamesFrom(repos, i, names);
            r.Some? ==> r.value == names + TruthyNames(repos[i..])
    decreases |repos| - i
  {
    if i == |repos| {
      assert names + TruthyNames(repos[i..]) == names;
    } else if repos[i].JObj? {
      var name := Lookup(repos[i].fields, "name");
      var next := if Truthy(name) then names + [name] else names;
      RepoNamesInOrder(repos, i + 1, next);
      assert repos[i..][1..] == repos[i + 1..];
      assert TruthyNames(repos[i..]) == (if Truthy(name) then [name] else []) + TruthyNames(repos[i + 1..]);
      ConcatAssoc(names, if Truthy(name) then [name] else [], TruthyNames(repos[i + 1..]));
      assert names + (if Truthy(name) then [name] else []) == next;
    }
  }

  /** On a listing of dicts the fallback loop yields exactly their truthy names. */
  lemma RepoNamesOfDicts(repos: seq<Json>)
    requires forall k :: 0 <= k < |repos| ==> repos[k].JObj?
    ensures RepoNamesFrom(repos, 0, []) == Some(TruthyNames(repos))
  {
    RepoNamesRaise(repos, 0, []);
    RepoNamesInOrder(repos, 0, []);
    assert repos[0..] == repos;
    assert [] + TruthyNames(repos) == TruthyNames(repos);
  }

  /**
   * `_get_project_repositories` on a listing of dicts returns their truthy
   * names in listing order, after that one request.
   */
  lemma ProjectRepositoriesNames(cfg: Config, log: seq<Request>, orgUrl: string, projectName: string,
                                 listing: Json, repos: seq<Json>)
    requires HasToken(cfg) && ReplyAt(cfg.replies, |log|) == Some(listing)
    requires ListField(listing, "value") == Some(repos)
    requires forall k :: 0 <= k < |repos| ==> repos[k].JObj?
    ensures ProjectRepositoriesRun(cfg, log, orgUrl, projectName)
            == Run(TruthyNames(repos), log + [ListRepositories(orgUrl, projectName)])
  {
    RepoNamesOfDicts(repos);
  }

  /** The fallback names: the truthy names of the entries, in listing order, at most one per entry. */
  lemma RepoNamesShape(repos: seq<Json>, i: nat, names: seq<Json>)
    requires i <= |repos|
    requires forall n :: n in names ==> Truthy(n)
    ensures var r := RepoNamesFrom(repos, i, names);
            r.Some? ==> Extends(names, r.value) && |r.value| <= |names| + |repos| - i
                        && (forall n :: n in r.value ==> Truthy(n))
                        && r.value == names + TruthyNames(repos[i..])
  {
    RepoNamesExtend(repos, i, names);
    RepoNamesTruthy(repos, i, names);
    RepoNamesInOrder(repos, i, names);
  }

  /** The fallback loop keeps the names collected so far in front, adding at most one per entry. */
  lemma {:induction false} RepoNamesExtend(repos: seq<Json>, i: nat, names: seq<Json>)
    requires i <= |repos|
    ensures var r := RepoNamesFrom(repos, i, names);
            r.Some? ==> Extends(names, r.value) && |r.value| <= |names| + |repos| - i
    decreases |repos| - i
  {
    if i < |repos| && repos[i].JObj? {
      var name := Lookup(repos[i].fields, "name");
      var next := if Truthy(name) then names + [name] else names;
      RepoNamesExtend(repos, i + 1, next);
      var r := RepoNamesFrom(repos, i + 1, next);
      if r.Some? {
        assert r.value[..|names|] == r.value[..|next|][..|names|];
      }
    }
  }

  /** The fallback loop collects only truthy names. */
  lemma {:induction false} RepoNamesTruthy(repos: seq<Json>, i: nat, names: seq<Json>)
    requires i <= |repos|
    requires forall n :: n in names ==> Truthy(n)
    ensures var r := RepoNamesFrom(repos, i, names);
            r.Some? ==> forall n :: n in r.value ==> Truthy(n)
    decreases |repos| - i
  {
    if i < |repos| && repos[i].JObj? {
      var name := Lookup(repos[i].fields, "name");
      RepoNamesTruthy(repos, i + 1, if Truthy(name) then names + [name] else names);
    }
  }


  /**
   * The association names a repository of the work item's own project:
   * every label it returns is `org/project/name`.
   */
  lemma AssociationLabels(cfg: Config, log: seq<Request>, workItem: map<string, Json>, orgUrl: string,
                          projectName: string, orgName: string)
    ensures var a := AssociationRun(cfg, log, workItem, orgUrl, projectName, orgName);
            a.value.Some? ==> StartsWith(a.value.value, orgName + "/" + projectName + "/")
  {
    match Items(GetOr(workItem, "relations", JArr([])))
    case None =>
    case Some(relations) =>
      var s := ScanRelations(cfg, log, orgUrl, projectName, relations, 0);
      match s.value
      case ScanRaised =>
      case Found(name) => LabelUnderProject(orgName, projectName, name);
      case NotFound =>
        var r := ProjectRepositoriesRun(cfg, s.log, orgUrl, projectName);
        if r.value != [] {
          LabelUnderProject(orgName, projectName, r.value[0]);
        }
  }

  /** A repository label starts with `org/project/`. */
  lemma LabelUnderProject(orgName: string, projectName: string, name: Json)
    ensures RepoLabel(orgName, projectName, name).Some? ==>
              StartsWith(RepoLabel(orgName, projectName, name).value, orgName + "/" + projectName + "/")
  {
    if Show(name).Some? {
      var prefix := orgName + "/" + projectName + "/";
      var text := RepoLabel(orgName, projectName, name).value;
      assert text == prefix + Show(name).value;
      assert text[..|prefix|] == prefix;
    }
  }

  /**
   * Without a commit link the association falls back to the project's first
   * repository name, and with no repository at all there is none.
   */
  lemma AssociationFallback(cfg: Config, log: seq<Request>, workItem: map<string, Json>, orgUrl: string,
                            projectName: string, orgName: string, relations: seq<Json>)
    requires Items(GetOr(workItem, "relations", JArr([]))) == Some(relations)
    requires forall k :: 0 <= k < |relations| ==> RelationTarget(relations[k]) == NotALink
    ensures var r := ProjectRepositoriesRun(cfg, log, orgUrl, projectName);
            AssociationRun(cfg, log, workItem, orgUrl, projectName, orgName)
            == Run(if r.value == [] then None else RepoLabel(orgName, projectName, r.value[0]), r.log)
  {
    NoCommitLinkNoLookup(cfg, log, orgUrl, projectName, relations, 0);
  }

  // ---------------------------------------------------------------------
  // get_suggested_tasks / _get_work_items_for_organization / _process_work_items
  // ---------------------------------------------------------------------

  /** A task as the walks emit it: Azure DevOps, an open issue, in a repository of organisation `org`. */
  predicate OrgTask(t: SuggestedTask, org: string) {
    t.provider == AzureDevOps && t.taskType == OpenIssue && StartsWith(t.repo, org + "/")
  }

  /**
   * The task a work item yields: the item's integer id, its title (the
   * untitled default when the field is missing), and a repository of the
   * item's organisation and project.
   */
  predicate TaskOfItem(t: SuggestedTask, workItem: map<string, Json>, orgName: string, projectName: string) {
    var fields := GetOr(workItem, "fields", JObj(map[]));
    OrgTask(t, orgName) && StartsWith(t.repo, orgName + "/" + projectName + "/")
    && Lookup(workItem, "id") == JInt(t.issueNumber)
    && fields.JObj? && GetOr(fields.fields, "System.Title", JStr(UntitledWorkItem)) == JStr(t.title)
  }

  /** `org/project/` begins with `org/`. */
  lemma PrefixOfPrefix(text: string, orgName: string, projectName: string)
    requires StartsWith(text, orgName + "/" + projectName + "/")
    ensures StartsWith(text, orgName + "/")
  {
    assert orgName + "/" + projectName + "/" == (orgName + "/") + (projectName + "/");
    assert text[..|orgName + "/"|] == (orgName + "/" + projectName + "/")[..|orgName + "/"|];
  }

  /** A work item yields at most one task, and that task carries the item's own id and title. */
  lemma ProcessItemShape(cfg: Config, log: seq<Request>, workItem: map<string, Json>, orgUrl: string,
                         projectName: string, orgName: string)
    ensures var p := ProcessItem(cfg, log, workItem, orgUrl, projectName, orgName);
            p.value.Some? ==> TaskOfItem(p.value.value, workItem, orgName, projectName)
  {
    var p := ProcessItem(cfg, log, workItem, orgUrl, projectName, orgName);
    if p.value.Some? {
      AssociationLabels(cfg, log, workItem, orgUrl, projectName, orgName);
      PrefixOfPrefix(p.value.value.repo, orgName, projectName);
    }
  }

  /**
   * A work item yields a task exactly when its `fields` is a dict, the
   * association names a repository, its `id` is an integer and its title
   * and type are strings; the task is then the open issue with that id and
   * title in the associated repository.
   */
  lemma ItemTask(cfg: Config, log: seq<Request>, workItem: map<string, Json>, orgUrl: string,
                 projectName: string, orgName: string)
    ensures var p := ProcessItem(cfg, log, workItem, orgUrl, projectName, orgName);
            var a := AssociationRun(cfg, log, workItem, orgUrl, projectName, orgName);
            var fields := GetOr(workItem, "fields", JObj(map[]));
            p.value.Some? <==> fields.JObj? && a.value.Some? && Lookup(workItem, "id").JInt?
                               && GetOr(fields.fields, "System.Title", JStr(UntitledWorkItem)).JStr?
                               && GetOr(fields.fields, "System.WorkItemType", JStr(DefaultWorkItemType)).JStr?
    ensures var p := ProcessItem(cfg, log, workItem, orgUrl, projectName, orgName);
            var a := AssociationRun(cfg, log, workItem, orgUrl, projectName, orgName);
            var fields := GetOr(workItem, "fields", JObj(map[]));
            p.value.Some? ==> p == Run(Some(SuggestedTask(AzureDevOps, OpenIssue, a.value.value, Lookup(workItem, "id").i,
                                                          GetOr(fields.fields, "System.Title", JStr(UntitledWorkItem)).s)),
                                       a.log)
  {
  }

  /**
   * In `_process_work_items`, a well-formed work item the association
   * places in repository `repo` appends exactly its task after what the
   * list holds, then the loop goes on with the next item.
   */
  lemma AssociatedItemAppendsTask(cfg: Config, orgUrl: string, projectName: string, orgName: string,
                                  items: seq<Json>, i: nat, acc: Acc<SuggestedTask>, repo: string, title: string)
    requires i < |items| && items[i].JObj?
    requires var fields := GetOr(items[i].fields, "fields", JObj(map[]));
             fields.JObj? && GetOr(fields.fields, "System.Title", JStr(UntitledWorkItem)) == JStr(title)
             && GetOr(fields.fields, "System.WorkItemType", JStr(DefaultWorkItemType)).JStr?
    requires Lookup(items[i].fields, "id").JInt?
    requires AssociationRun(cfg, acc.log, items[i].fields, orgUrl, projectName, orgName).value == Some(repo)
    ensures var a := AssociationRun(cfg, acc.log, items[i].fields, orgUrl, projectName, orgName);
            var t := SuggestedTask(AzureDevOps, OpenIssue, repo, Lookup(items[i].fields, "id").i, title);
            ProcessItemsLoop(cfg, orgUrl, projectName, orgName, items, i, acc)
            == ProcessItemsLoop(cfg, orgUrl, projectName, orgName, items, i + 1, Acc(acc.items + [t], a.log, false))
  {
    ItemTask(cfg, acc.log, items[i].fields, orgUrl, projectName, orgName);
  }

  /**
   * In `_process_work_items`, a work item with no associated repository
   * appends nothing; only the association's requests are added.
   */
  lemma UnassociatedItemSkipped(cfg: Config, orgUrl: string, projectName: string, orgName: string,
                                items: seq<Json>, i: nat, acc: Acc<SuggestedTask>)
    requires i < |items| && items[i].JObj? && GetOr(items[i].fields, "fields", JObj(map[])).JObj?
    requires AssociationRun(cfg, acc.log, items[i].fields, orgUrl, projectName, orgName).value.None?
    ensures var a := AssociationRun(cfg, acc.log, items[i].fields, orgUrl, projectName, orgName);
            ProcessItemsLoop(cfg, orgUrl, projectName, orgName, items, i, acc)
            == ProcessItemsLoop(cfg, orgUrl, projectName, orgName, items, i + 1, Acc(acc.items, a.log, false))
  {
    assert acc.items + [] == acc.items;
  }

  /**
   * `ts` follows the work items of `items[i..]`: each task carries the id
   * of a distinct item, and the tasks come in the items' order.
   */
  predicate TasksInItemOrder(ts: seq<SuggestedTask>, items: seq<Json>, i: nat)
    requires i <= |items|
    decreases |items| - i
  {
    ts == []
    || (i < |items|
        && (TasksInItemOrder(ts, items, i + 1)
            || (items[i].JObj? && Lookup(items[i].fields, "id") == JInt(ts[0].issueNumber)
                && TasksInItemOrder(ts[1..], items, i + 1))))
  }

  /** The item loop appends its tasks in the order of the work items, at most one per item. */
  lemma {:induction false} ProcessItemsLoopOrder(cfg: Config, orgUrl: string, projectName: string, orgName: string,
                                                 items: seq<Json>, i: nat, acc: Acc<SuggestedTask>)
    requires i <= |items|
    ensures var a := ProcessItemsLoop(cfg, orgUrl, projectName, orgName, items, i, acc);
            |acc.items| <= |a.items| && TasksInItemOrder(a.items[|acc.items|..], items, i)
    decreases |items| - i
  {
    var a := ProcessItemsLoop(cfg, orgUrl, projectName, orgName, items, i, acc);
    if i == |items| || !items[i].JObj? {
      assert a.items[|acc.items|..] == [];
    } else {
      var step := ProcessItem(cfg, acc.log, items[i].fields, orgUrl, projectName, orgName);
      var next := Acc(acc.items + Emitted(step.value), step.log, false);
      ProcessItemsLoopOrder(cfg, orgUrl, projectName, orgName, items, i + 1, next);
      ProcessItemsLoopExtends(cfg, orgUrl, projectName, orgName, items, i + 1, next);
      SuffixSplits(acc.items, next.items, a.items);
      assert next.items[|acc.items|..] == Emitted(step.value);
      var ts := a.items[|acc.items|..];
      var rest := a.items[|next.items|..];
      if step.value.Some? {
        ProcessItemShape(cfg, acc.log, items[i].fields, orgUrl, projectName, orgName);
        assert ts == [step.value.value] + rest;
        assert ts[1..] == rest;
      } else {
        assert ts == rest;
      }
    }
  }

  /** A task in a repository of project `project` of organisation `org`. */
  predicate ProjectTask(t: SuggestedTask, org: string, project: string) {
    OrgTask(t, org) && StartsWith(t.repo, org + "/" + project + "/")
  }

  /**
   * `_process_work_items` appends after what the list holds, at most one
   * task per work item and in the items' order, each an open issue of the
   * project it walks.
   */
  lemma ProcessItemsLoopShape(cfg: Config, orgUrl: string, projectName: string, orgName: string,
                              items: seq<Json>, i: nat, acc: Acc<SuggestedTask>)
    requires i <= |items|
    ensures var a := ProcessItemsLoop(cfg, orgUrl, projectName, orgName, items, i, acc);
            Extends(acc.items, a.items) && |a.items| <= |acc.items| + |items| - i
            && (forall t :: t in a.items[|acc.items|..] ==> ProjectTask(t, orgName, projectName))
            && TasksInItemOrder(a.items[|acc.items|..], items, i)
  {
    ProcessItemsLoopExtends(cfg, orgUrl, projectName, orgName, items, i, acc);
    ProcessItemsLoopTasks(cfg, orgUrl, projectName, orgName, items, i, acc);
    ProcessItemsLoopOrder(cfg, orgUrl, projectName, orgName, items, i, acc);
  }

  /** The item loop keeps what the list held in front and appends at most one task per item. */
  lemma {:induction false} ProcessItemsLoopExtends(cfg: Config, orgUrl: string, projectName: string, orgName: string,
                                                   items: seq<Json>, i: nat, acc: Acc<SuggestedTask>)
    requires i <= |items|
    ensures var a := ProcessItemsLoop(cfg, orgUrl, projectName, orgName, items, i, acc);
            Extends(acc.items, a.items) && |a.items| <= |acc.items| + |items| - i
    decreases |items| - i
  {
    if i < |items| && items[i].JObj? {
      var step := ProcessItem(cfg, acc.log, items[i].fields, orgUrl, projectName, orgName);
      var next := Acc(acc.items + Emitted(step.value), step.log, false);
      ProcessItemsLoopExtends(cfg, orgUrl, projectName, orgName, items, i + 1, next);
      var a := ProcessItemsLoop(cfg, orgUrl, projectName, orgName, items, i + 1, next);
      assert a.items[..|acc.items|] == a.items[..|next.items|][..|acc.items|];
    }
  }

  /** Every task the item loop appends is in a repository of the walked project. */
  lemma {:induction false} ProcessItemsLoopTasks(cfg: Config, orgUrl: string, projectName: string, orgName: string,
                                                 items: seq<Json>, i: nat, acc: Acc<SuggestedTask>)
    requires i <= |items|
    ensures var a := ProcessItemsLoop(cfg, orgUrl, projectName, orgName, items, i, acc);
            |acc.items| <= |a.items| && forall t :: t in a.items[|acc.items|..] ==> ProjectTask(t, orgName, projectName)
    decreases |items| - i
  {
    if i < |items| && items[i].JObj? {
      var step := ProcessItem(cfg, acc.log, items[i].fields, orgUrl, projectName, orgName);
      ProcessItemShape(cfg, acc.log, items[i].fields, orgUrl, projectName, orgName);
      var next := Acc(acc.items + Emitted(step.value), step.log, false);
      ProcessItemsLoopTasks(cfg, orgUrl, projectName, orgName, items, i + 1, next);
      ProcessItemsLoopExtends(cfg, orgUrl, projectName, orgName, items, i + 1, next);
      var a := ProcessItemsLoop(cfg, orgUrl, projectName, orgName, items, i + 1, next);
      SuffixSplits(acc.items, next.items, a.items);
      assert next.items[|acc.items|..] == Emitted(step.value);
    }
  }


  /** Every task `_process_work_items` appends is an open issue of the organisation's display name. */
  lemma ProcessWorkItemsShape(cfg: Config, log: seq<Request>, orgUrl: string, projectName: string, ids: seq<Json>)
    ensures forall t :: t in ProcessWorkItemsRun(cfg, log, orgUrl, projectName, ids).value
                        ==> OrgTask(t, OrgDisplayName(cfg.baseUrl, orgUrl))
  {
    var f := Fetch(cfg, log, WorkItemDetails(orgUrl, projectName, ids));
    if f.value.Some? && Get(f.value.value, "value", JArr([])).Some?
       && Items(Get(f.value.value, "value", JArr([])).value).Some? {
      var items := Items(Get(f.value.value, "value", JArr([])).value).value;
      var org := OrgDisplayName(cfg.baseUrl, orgUrl);
      ProcessItemsLoopShape(cfg, orgUrl, projectName, org, items, 0, Acc([], f.log, false));
      var a := ProcessItemsLoop(cfg, orgUrl, projectName, org, items, 0, Acc([], f.log, false));
      assert a.items[0..] == a.items;
    }
  }

  /** A WIQL reply without work items ends that project: nothing is appended and no further request is sent. */
  lemma EmptyWiqlStops(cfg: Config, log: seq<Request>, orgUrl: string, projectName: string, email: string, reply: Json)
    requires HasToken(cfg) && ReplyAt(cfg.replies, |log|) == Some(reply)
    requires reply.JObj? && !Truthy(GetOr(reply.fields, "workItems", JArr([])))
    ensures ProjectWorkItemsRun(cfg, log, orgUrl, projectName, email) == Run([], log + [Wiql(orgUrl, projectName, email)])
  {
  }

  /**
   * One project's tasks: a WIQL reply listing work items with ids, then a
   * details reply listing them, give the tasks of the item loop over those
   * details, after exactly those two requests and the association's.
   */
  lemma ProjectWorkItemsChain(cfg: Config, log: seq<Request>, orgUrl: string, projectName: string, email: string,
                              wiql: Json, refs: seq<Json>, ids: seq<Json>, details: Json, items: seq<Json>)
    requires HasToken(cfg) && refs != []
    requires ReplyAt(cfg.replies, |log|) == Some(wiql) && Get(wiql, "workItems", JArr([])) == Some(JArr(refs))
    requires WorkItemIds(refs) == Some(ids)
    requires ReplyAt(cfg.replies, |log| + 1) == Some(details) && Get(details, "value", JArr([])) == Some(JArr(items))
    ensures var sent := log + [Wiql(orgUrl, projectName, email), WorkItemDetails(orgUrl, projectName, ids)];
            var a := ProcessItemsLoop(cfg, orgUrl, projectName, OrgDisplayName(cfg.baseUrl, orgUrl), items, 0, Acc([], sent, false));
            ProjectWorkItemsRun(cfg, log, orgUrl, projectName, email) == Run(a.items, a.log)
  {
    WiqlHandsIdsOn(cfg, log, orgUrl, projectName, email, wiql, refs, ids);
    var sent := log + [Wiql(orgUrl, projectName, email)];
    DetailsRunItemLoop(cfg, sent, orgUrl, projectName, ids, details, items);
    assert sent + [WorkItemDetails(orgUrl, projectName, ids)]
           == log + [Wiql(orgUrl, projectName, email), WorkItemDetails(orgUrl, projectName, ids)];
  }

  /** A WIQL reply listing work items with ids hands those ids to `_process_work_items` after that one request. */
  lemma WiqlHandsIdsOn(cfg: Config, log: seq<Request>, orgUrl: string, projectName: string, email: string,
                       wiql: Json, refs: seq<Json>, ids: seq<Json>)
    requires HasToken(cfg) && refs != []
    requires ReplyAt(cfg.replies, |log|) == Some(wiql) && Get(wiql, "workItems", JArr([])) == Some(JArr(refs))
    requires WorkItemIds(refs) == Some(ids)
    ensures ProjectWorkItemsRun(cfg, log, orgUrl, projectName, email)
            == ProcessWorkItemsRun(cfg, log + [Wiql(orgUrl, projectName, email)], orgUrl, projectName, ids)
  {
    assert ids != [] by {
      assert |ids| == |refs|;
    }
  }

  /** A details reply listing work items hands them to the item loop after that one request. */
  lemma DetailsRunItemLoop(cfg: Config, log: seq<Request>, orgUrl: string, projectName: string, ids: seq<Json>,
                           reply: Json, items: seq<Json>)
    requires HasToken(cfg) && ReplyAt(cfg.replies, |log|) == Some(reply)
    requires Get(reply, "value", JArr([])) == Some(JArr(items))
    ensures var a := ProcessItemsLoop(cfg, orgUrl, projectName, OrgDisplayName(cfg.baseUrl, orgUrl), items, 0,
                                      Acc([], log + [WorkItemDetails(orgUrl, projectName, ids)], false));
            ProcessWorkItemsRun(cfg, log, orgUrl, projectName, ids) == Run(a.items, a.log)
  {
  }

  /** The project loop of `_get_work_items_for_organization` appends only open issues of the organisation. */
  lemma {:induction false} WorkItemProjectsLoopShape(cfg: Config, orgUrl: string, email: string, projects: seq<Json>,
                                                     i: nat, acc: Acc<SuggestedTask>)
    requires i <= |projects|
    requires forall t :: t in acc.items ==> OrgTask(t, OrgDisplayName(cfg.baseUrl, orgUrl))
    ensures var a := WorkItemProjectsLoop(cfg, orgUrl, email, projects, i, acc);
            Extends(acc.items, a.items) && forall t :: t in a.items ==> OrgTask(t, OrgDisplayName(cfg.baseUrl, orgUrl))
    decreases |projects| - i
  {
    if i < |projects| {
      match WorkItemProjectStep(cfg, acc.log, orgUrl, email, projects[i])
      case None =>
      case Some(step) =>
        var name := Lookup(projects[i].fields, "name");
        if Truthy(name) {
          var p := ProjectWorkItemsRun(cfg, acc.log, orgUrl, QuoteArg(name).value, email);
          var f := Fetch(cfg, acc.log, Wiql(orgUrl, QuoteArg(name).value, email));
          if f.value.Some? && Get(f.value.value, "workItems", JArr([])).Some?
             && Items(Get(f.value.value, "workItems", JArr([])).value).Some?
             && WorkItemIds(Items(Get(f.value.value, "workItems", JArr([])).value).value).Some? {
            var ids := WorkItemIds(Items(Get(f.value.value, "workItems", JArr([])).value).value).value;
            ProcessWorkItemsShape(cfg, f.log, orgUrl, QuoteArg(name).value, ids);
          }
        }
        var next := Acc(acc.items + step.value, step.log, false);
        WorkItemProjectsLoopShape(cfg, orgUrl, email, projects, i + 1, next);
        var a := WorkItemProjectsLoop(cfg, orgUrl, email, projects, i + 1, next);
        assert a.items[..|acc.items|] == a.items[..|next.items|][..|acc.items|];
    }
  }

  /**
   * A project with a string name appends its tasks after what the list
   * holds, and the project loop goes on with the next project.
   */
  lemma NamedProjectAppendsTasks(cfg: Config, orgUrl: string, email: string, projects: seq<Json>, i: nat,
                                 acc: Acc<SuggestedTask>, projectName: string)
    requires i < |projects| && projects[i].JObj?
    requires Lookup(projects[i].fields, "name") == JStr(projectName) && projectName != []
    ensures var p := ProjectWorkItemsRun(cfg, acc.log, orgUrl, projectName, email);
            WorkItemProjectsLoop(cfg, orgUrl, email, projects, i, acc)
            == WorkItemProjectsLoop(cfg, orgUrl, email, projects, i + 1, Acc(acc.items + p.value, p.log, false))
  {
  }

  /** `_get_work_items_for_organization` never raises and appends only open issues of the organisation. */
  lemma WorkItemsForOrgShape(cfg: Config, log: seq<Request>, orgUrl: string, email: string)
    ensures forall t :: t in WorkItemsForOrgRun(cfg, log, orgUrl, email).value ==> OrgTask(t, OrgDisplayName(cfg.baseUrl, orgUrl))
  {
    var f := Fetch(cfg, log, ListProjects(orgUrl));
    if f.value.Some? && ListField(f.value.value, "value").Some? {
      WorkItemProjectsLoopShape(cfg, orgUrl, email, ListField(f.value.value, "value").value, 0, Acc([], f.log, false));
    }
  }

  /**
   * The organisation loop of `get_suggested_tasks` keeps every task found
   * before an organisation entry that raises: unlike `get_repositories`,
   * the handler around this loop returns what was collected.
   */
  lemma TaskOrgsLoopKeepsTasks(cfg: Config, email: string, orgs: seq<Json>, i: nat, acc: Acc<SuggestedTask>)
    requires i <= |orgs|
    ensures var a := TaskOrgsLoop(cfg, email, orgs, i, acc);
            Extends(acc.items, a.items) && Extends(acc.log, a.log)
            && forall t :: t in a.items[|acc.items|..] ==> t.provider == AzureDevOps && t.taskType == OpenIssue
  {
    TaskOrgsLoopExtends(cfg, email, orgs, i, acc);
    TaskOrgsLoopIssues(cfg, email, orgs, i, acc);
  }

  /**
   * On the default base, an organisation with a truthy, renderable
   * `accountName` appends its tasks after what the list holds, and the walk
   * goes on with the next organisation.
   */
  lemma ListedTaskOrganizationAppends(cfg: Config, email: string, orgs: seq<Json>, i: nat, acc: Acc<SuggestedTask>,
                                      orgName: string)
    requires i < |orgs| && orgs[i].JObj? && Truthy(Lookup(orgs[i].fields, "accountName"))
    requires Show(Lookup(orgs[i].fields, "accountName")) == Some(orgName)
    ensures var w := WorkItemsForOrgRun(cfg, acc.log, cfg.baseUrl + "/" + orgName, email);
            TaskOrgsLoop(cfg, email, orgs, i, acc) == TaskOrgsLoop(cfg, email, orgs, i + 1, Acc(acc.items + w.value, w.log, false))
  {
  }

  /** One organisation entry of `get_suggested_tasks` only adds requests, and adds only open Azure DevOps issues. */
  lemma TaskOrgStepShape(cfg: Config, log: seq<Request>, email: string, org: Json)
    ensures var s := TaskOrgStep(cfg, log, email, org);
            s.Some? ==> Extends(log, s.value.log)
                        && forall t :: t in s.value.value ==> t.provider == AzureDevOps && t.taskType == OpenIssue
  {
    if org.JObj? && Truthy(Lookup(org.fields, "accountName")) && Show(Lookup(org.fields, "accountName")).Some? {
      var orgUrl := cfg.baseUrl + "/" + Show(Lookup(org.fields, "accountName")).value;
      WorkItemsForOrgShape(cfg, log, orgUrl, email);
      WorkItemsForOrgLog(cfg, log, orgUrl, email);
    }
  }

  /** The organisation loop of `get_suggested_tasks` keeps the tasks and requests that came before. */
  lemma {:induction false} TaskOrgsLoopExtends(cfg: Config, email: string, orgs: seq<Json>, i: nat, acc: Acc<SuggestedTask>)
    requires i <= |orgs|
    ensures var a := TaskOrgsLoop(cfg, email, orgs, i, acc);
            Extends(acc.items, a.items) && Extends(acc.log, a.log)
    decreases |orgs| - i
  {
    if i < |orgs| {
      TaskOrgStepShape(cfg, acc.log, email, orgs[i]);
      match TaskOrgStep(cfg, acc.log, email, orgs[i])
      case None =>
      case Some(step) =>
        var next := Acc(acc.items + step.value, step.log, false);
        TaskOrgsLoopExtends(cfg, email, orgs, i + 1, next);
        var a := TaskOrgsLoop(cfg, email, orgs, i + 1, next);
        assert a.items[..|acc.items|] == a.items[..|next.items|][..|acc.items|];
        assert a.log[..|acc.log|] == a.log[..|next.log|][..|acc.log|];
    }
  }

  /** The organisation loop of `get_suggested_tasks` appends only open Azure DevOps issues. */
  lemma {:induction false} TaskOrgsLoopIssues(cfg: Config, email: string, orgs: seq<Json>, i: nat, acc: Acc<SuggestedTask>)
    requires i <= |orgs|
    ensures var a := TaskOrgsLoop(cfg, email, orgs, i, acc);
            |acc.items| <= |a.items|
            && forall t :: t in a.items[|acc.items|..] ==> t.provider == AzureDevOps && t.taskType == OpenIssue
    decreases |orgs| - i
  {
    if i < |orgs| {
      TaskOrgStepShape(cfg, acc.log, email, orgs[i]);
      match TaskOrgStep(cfg, acc.log, email, orgs[i])
      case None =>
      case Some(step) =>
        var next := Acc(acc.items + step.value, step.log, false);
        TaskOrgsLoopIssues(cfg, email, orgs, i + 1, next);
        TaskOrgsLoopExtends(cfg, email, orgs, i + 1, next);
        var a := TaskOrgsLoop(cfg, email, orgs, i + 1, next);
        SuffixSplits(acc.items, next.items, a.items);
        assert next.items[|acc.items|..] == step.value;
    }
  }


  /** `_get_work_items_for_organization` only adds requests to the log. */
  lemma WorkItemsForOrgLog(cfg: Config, log: seq<Request>, orgUrl: string, email: string)
    ensures Extends(log, WorkItemsForOrgRun(cfg, log, orgUrl, email).log)
  {
    var f := Fetch(cfg, log, ListProjects(orgUrl));
    if f.value.Some? && ListField(f.value.value, "value").Some? {
      WorkItemProjectsLoopShape(cfg, orgUrl, email, ListField(f.value.value, "value").value, 0, Acc([], f.log, false));
      WorkItemProjectsLoopLog(cfg, orgUrl, email, ListField(f.value.value, "value").value, 0, Acc([], f.log, false));
      var a := WorkItemProjectsLoop(cfg, orgUrl, email, ListField(f.value.value, "value").value, 0, Acc([], f.log, false));
      assert a.log[..|log|] == a.log[..|f.log|][..|log|];
    }
  }

  /** The project loop of `_get_work_items_for_organization` only adds requests to the log. */
  lemma {:induction false} WorkItemProjectsLoopLog(cfg: Config, orgUrl: string, email: string, projects: seq<Json>,
                                                   i: nat, acc: Acc<SuggestedTask>)
    requires i <= |projects|
    ensures Extends(acc.log, WorkItemProjectsLoop(cfg, orgUrl, email, projects, i, acc).log)
    decreases |projects| - i
  {
    if i < |projects| {
      match WorkItemProjectStep(cfg, acc.log, orgUrl, email, projects[i])
      case None =>
      case Some(step) =>
        var name := Lookup(projects[i].fields, "name");
        if Truthy(name) {
          ProjectWorkItemsLog(cfg, acc.log, orgUrl, QuoteArg(name).value, email);
        }
        var next := Acc(acc.items + step.value, step.log, false);
        WorkItemProjectsLoopLog(cfg, orgUrl, email, projects, i + 1, next);
        var a := WorkItemProjectsLoop(cfg, orgUrl, email, projects, i + 1, next);
        assert a.log[..|acc.log|] == a.log[..|next.log|][..|acc.log|];
    }
  }

  /** One project's WIQL query and work items only add requests to the log. */
  lemma ProjectWorkItemsLog(cfg: Config, log: seq<Request>, orgUrl: string, projectName: string, email: string)
    ensures Extends(log, ProjectWorkItemsRun(cfg, log, orgUrl, projectName, email).log)
  {
    var f := Fetch(cfg, log, Wiql(orgUrl, projectName, email));
    var r := ProjectWorkItemsRun(cfg, log, orgUrl, projectName, email);
    if r.log != f.log {
      var ids :| ProcessWorkItemsRun(cfg, f.log, orgUrl, projectName, ids) == r;
      ProcessWorkItemsLog(cfg, f.log, orgUrl, projectName, ids);
      assert r.log[..|log|] == r.log[..|f.log|][..|log|];
    }
  }

  /** `_process_work_items` only adds requests to the log. */
  lemma ProcessWorkItemsLog(cfg: Config, log: seq<Request>, orgUrl: string, projectName: string, ids: seq<Json>)
    ensures Extends(log, ProcessWorkItemsRun(cfg, log, orgUrl, projectName, ids).log)
  {
    var f := Fetch(cfg, log, WorkItemDetails(orgUrl, projectName, ids));
    if f.value.Some? && Get(f.value.value, "value", JArr([])).Some?
       && Items(Get(f.value.value, "value", JArr([])).value).Some? {
      var items := Items(Get(f.value.value, "value", JArr([])).value).value;
      var org := OrgDisplayName(cfg.baseUrl, orgUrl);
      ProcessItemsLoopLog(cfg, orgUrl, projectName, org, items, 0, Acc([], f.log, false));
      var a := ProcessItemsLoop(cfg, orgUrl, projectName, org, items, 0, Acc([], f.log, false));
      assert a.log[..|log|] == a.log[..|f.log|][..|log|];
    }
  }

  /** The item loop of `_process_work_items` only adds requests to the log. */
  lemma {:induction false} ProcessItemsLoopLog(cfg: Config, orgUrl: string, projectName: string, orgName: string,
                                               items: seq<Json>, i: nat, acc: Acc<SuggestedTask>)
    requires i <= |items|
    ensures Extends(acc.log, ProcessItemsLoop(cfg, orgUrl, projectName, orgName, items, i, acc).log)
    decreases |items| - i
  {
    if i < |items| && items[i].JObj? {
      var step := ProcessItem(cfg, acc.log, items[i].fields, orgUrl, projectName, orgName);
      AssociationLog(cfg, acc.log, items[i].fields, orgUrl, projectName, orgName);
      var next := Acc(acc.items + Emitted(step.value), step.log, false);
      ProcessItemsLoopLog(cfg, orgUrl, projectName, orgName, items, i + 1, next);
      var a := ProcessItemsLoop(cfg, orgUrl, projectName, orgName, items, i + 1, next);
      assert a.log[..|acc.log|] == a.log[..|next.log|][..|acc.log|];
    }
  }

  /** The association only adds requests to the log. */
  lemma AssociationLog(cfg: Config, log: seq<Request>, workItem: map<string, Json>, orgUrl: string,
                       projectName: string, orgName: string)
    ensures Extends(log, AssociationRun(cfg, log, workItem, orgUrl, projectName, orgName).log)
  {
    match Items(GetOr(workItem, "relations", JArr([])))
    case None =>
    case Some(relations) =>
      ScanRequests(cfg, log, orgUrl, projectName, relations, 0);
      var s := ScanRelations(cfg, log, orgUrl, projectName, relations, 0);
      var r := ProjectRepositoriesRun(cfg, s.log, orgUrl, projectName);
      assert r.log[..|log|] == r.log[..|s.log|][..|log|];
  }

  /** `get_suggested_tasks` gives nothing when the user has no email, or when `get_user` fails. */
  lemma NoEmailNoTasks(cfg: Config, log: seq<Request>)
    requires var u := UserRun(cfg, log); u.value.Failure? || u.value.value.email == []
    ensures SuggestedTasksRun(cfg, log) == Run([], UserRun(cfg, log).log)
  {
  }

  // ---------------------------------------------------------------------
  // get_repository_details_from_repo_name / get_branches
  // ---------------------------------------------------------------------

  /**
   * Both single-repository operations raise ValueError exactly for names
   * that are not three '/'-separated parts, and then before any request.
   */
  lemma MalformedNameRaisesFirst(cfg: Config, log: seq<Request>, repository: string)
    ensures BranchesRun(cfg, log, repository).value == Failure(ValueError(RepoFormatMessage))
            <==> |Split(repository, '/')| != 3
    ensures RepositoryDetailsRun(cfg, log, repository).value == Failure(ValueError(RepoFormatMessage))
            <==> |Split(repository, '/')| != 3
    ensures |Split(repository, '/')| != 3 ==> BranchesRun(cfg, log, repository).log == log
                                               && RepositoryDetailsRun(cfg, log, repository).log == log
  {
  }

  /**
   * For a well-formed name, `get_branches` sends the one refs request (with
   * the organisation only on the default base) and otherwise never fails.
   */
  lemma BranchesRequest(cfg: Config, log: seq<Request>, org: string, project: string, repo: string)
    requires HasToken(cfg)
    requires '/' !in org && '/' !in project && '/' !in repo
    ensures var b := BranchesRun(cfg, log, FullName(org, project, repo));
            b.value.Success? && b.log == log + [RefsRequest(cfg.baseUrl, org, project, repo)]
  {
    FullNameRoundTrip(org, project, repo);
  }

  /**
   * `get_repository_details_from_repo_name` either returns the repository
   * under the very name it was given, private and carrying the provider's
   * own id, or raises AuthenticationError naming that repository.
   */
  lemma RepositoryDetailsOutcome(cfg: Config, log: seq<Request>, repository: string)
    requires |Split(repository, '/')| == 3
    ensures var d := RepositoryDetailsRun(cfg, log, repository).value;
            (d.Success? ==> d.value.fullName == repository && d.value.id.Native? && !d.value.isPublic
                            && d.value.provider == AzureDevOps)
            && (d.Failure? ==> d.error == AuthenticationError("Cannot access repository " + repository))
  {
  }

  /** A refs request that fails makes `get_branches` return no branches, not an error. */
  lemma BranchesFailureEmpty(cfg: Config, log: seq<Request>, org: string, project: string, repo: string)
    requires HasToken(cfg) && ReplyAt(cfg.replies, |log|).None?
    requires '/' !in org && '/' !in project && '/' !in repo
    ensures BranchesRun(cfg, log, FullName(org, project, repo))
            == Run(Success([]), log + [RefsRequest(cfg.baseUrl, org, project, repo)])
  {
    FullNameRoundTrip(org, project, repo);
  }

  /** The branches of `refs[i..]`: at most one per ref, each with a name and never protected. */
  lemma {:induction false} BranchesShape(refs: seq<Json>, i: nat)
    requires i <= |refs|
    ensures var bs := BranchesFrom(refs, i);
            bs.Some? ==> |bs.value| <= |refs| - i && forall b :: b in bs.value ==> b.name != [] && !b.protected
    decreases |refs| - i
  {
    if i < |refs| {
      BranchesShape(refs, i + 1);
    }
  }

  /** The branches of `refs[|front|..]` in `front + back` are the branches of `back`. */
  lemma {:induction false} BranchesFromShift(front: seq<Json>, back: seq<Json>, j: nat)
    requires j <= |back|
    ensures BranchesFrom(front + back, |front| + j) == BranchesFrom(back, j)
    decreases |back| - j
  {
    if j < |back| {
      assert (front + back)[|front| + j] == back[j];
      BranchesFromShift(front, back, j + 1);
    }
  }

  /** Both lists present, concatenated; otherwise none. */
  function BothThen<T>(a: Option<seq<T>>, b: Option<seq<T>>): Option<seq<T>> {
    if a.Some? && b.Some? then Some(a.value + b.value) else None
  }

  /**
   * Branches keep the API's order: the branches of two ref listings one
   * after the other are the branches of the first followed by those of the
   * second (and a ref that raises anywhere empties the result).
   */
  lemma {:induction false} BranchesOfConcatenation(front: seq<Json>, back: seq<Json>, i: nat)
    requires i <= |front|
    ensures BranchesFrom(front + back, i) == BothThen(BranchesFrom(front, i), BranchesFrom(back, 0))
    decreases |front| - i
  {
    if i == |front| {
      BranchesFromShift(front, back, 0);
      if BranchesFrom(back, 0).Some? {
        assert [] + BranchesFrom(back, 0).value == BranchesFrom(back, 0).value;
      }
    } else {
      assert (front + back)[i] == front[i];
      BranchesOfConcatenation(front, back, i + 1);
      match BranchOf(front[i])
      case RefRaised =>
      case RefSkipped =>
      case RefKept(b) =>
        if BranchesFrom(front, i + 1).Some? && BranchesFrom(back, 0).Some? {
          ConcatAssoc([b], BranchesFrom(front, i + 1).value, BranchesFrom(back, 0).value);
        }
    }
  }

  /**
   * A head ref `refs/heads/<name>` (with no further "refs/heads/" inside
   * the name) becomes the branch `<name>` at its `objectId`, unprotected.
   */
  lemma HeadRefBranch(ref: Json, name: string, sha: string)
    requires ref.JObj? && name != []
    requires forall j: nat :: !OccursAt(name, BranchPrefix, j)
    requires GetOr(ref.fields, "name", JStr([])) == JStr(BranchPrefix + name)
    requires GetOr(ref.fields, "objectId", JStr([])) == JStr(sha)
    ensures BranchOf(ref) == RefKept(Branch(name, sha, false))
  {
    RemoveAllLeading(name, BranchPrefix);
    RemoveAllAbsent(name, BranchPrefix);
  }
}
