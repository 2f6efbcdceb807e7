/**
 * The adapter as the program runs it: a service object over a transport,
 * whose walks append to caller-owned lists and issue requests one after
 * another. Every method is proved to compute exactly its run in `Walks`.
 */
module Service {
  import opened Wrappers
  import opened Strings
  import opened JsonModel
  import opened Types
  import opened Auth
  import opened BaseUrl
  import opened UrlHost
  import opened RepoNames
  import opened Walks

  /**
   * The HTTP layer: the API's replies, consumed one per request in the
   * order the requests are sent (a failure once they are used up), and
   * the log of the requests sent.
   */
  class Transport {
    const replies: seq<Response>
    var sent: seq<Request>

    constructor(replies: seq<Response>)
      ensures this.replies == replies && sent == []
    {
      this.replies := replies;
      sent := [];
    }

    /** Sends one request and takes the next reply. */
    method Send(req: Request) returns (reply: Option<Json>)
      modifies this
      ensures sent == old(sent) + [req]
      ensures reply == ReplyAt(replies, |old(sent)|)
    {
      reply := ReplyAt(replies, |sent|);
      sent := sent + [req];
    }
  }

  /** A Python list owned by a caller, appended to in place. */
  class ListBuffer<T> {
    var items: seq<T>

    constructor()
      ensures items == []
    {
      items := [];
    }

    method Append(x: T)
      modifies this
      ensures items == old(items) + [x]
    {
      items := items + [x];
    }
  }

  class AzureDevOpsService {
    const baseUrl: string
    const token: Option<string>
    const hash: Json -> int
    const transport: Transport

    /** `__init__` for a base domain it accepts. */
    constructor(baseDomain: Option<string>, token: Option<string>, hash: Json -> int, transport: Transport)
      requires NormalizeBaseUrl(baseDomain).Success?
      ensures baseUrl == NormalizeBaseUrl(baseDomain).value
      ensures this.token == token && this.hash == hash && this.transport == transport
    {
      baseUrl := NormalizeBaseUrl(baseDomain).value;
      this.token := token;
      this.hash := hash;
      this.transport := transport;
    }

    /** `__init__`, which raises IndexError for an "http..." domain without "://". */
    static method Create(baseDomain: Option<string>, token: Option<string>, hash: Json -> int, transport: Transport)
      returns (r: Result<AzureDevOpsService, ServiceError>)
      ensures r.Failure? <==> NormalizeBaseUrl(baseDomain).Failure?
      ensures r.Failure? ==> r.error == IndexError
      ensures r.Success? ==> fresh(r.value) && r.value.baseUrl == NormalizeBaseUrl(baseDomain).value
                             && r.value.token == token && r.value.hash == hash && r.value.transport == transport
    {
      var normalized := NormalizeBaseUrl(baseDomain);
      if normalized.Failure? {
        return Failure(normalized.error);
      }
      var service := new AzureDevOpsService(baseDomain, token, hash, transport);
      return Success(service);
    }

    /** The configuration the runs of `Walks` are stated over. */
    function Cfg(): Config {
      Config(baseUrl, token, hash, transport.replies)
    }

    /** `_make_request`: the token check, then one request. */
    method MakeRequest(req: Request) returns (reply: Option<Json>)
      modifies transport
      ensures Run(reply, transport.sent) == Fetch(Cfg(), old(transport.sent), req)
    {
      var headers := AuthHeaders(token);
      if headers.Failure? {
        return None;
      }
      reply := transport.Send(req);
    }

    /** `get_user`: connection data (custom base only), then the profile, then the token probe. */
    method GetUser() returns (r: Result<User, ServiceError>)
      modifies transport
      ensures Run(r, transport.sent) == UserRun(Cfg(), old(transport.sent))
    {
      if baseUrl != DefaultBase {
        var data := MakeRequest(ConnectionData(baseUrl));
        if data.Some? {
          var user := ConnectionUser(Cfg(), data.value);
          if user.Some? {
            return Success(user.value);
          }
        }
      }
      var profile := MakeRequest(Profile);
      if profile.Some? {
        var user := ProfileUser(Cfg(), profile.value);
        if user.Some? {
          return Success(user.value);
        }
      }
      var probe := MakeRequest(ProbeRequest(baseUrl));
      if probe.Some? {
        return Success(FallbackUser);
      }
      return Failure(AuthenticationError(InvalidTokenMessage));
    }

    /** The repository loop of `_process_projects`: append one entry per repository until one raises. */
    method AppendRepoEntries(repos: seq<Json>, orgName: string, projectName: string, repositories: ListBuffer<Repository>)
      modifies repositories
      ensures repositories.items == old(repositories.items) + RepoEntriesFrom(Cfg(), repos, 0, orgName, projectName)
    {
      ghost var start := repositories.items;
      var j := 0;
      while j < |repos|
        invariant 0 <= j <= |repos|
        invariant start + RepoEntriesFrom(Cfg(), repos, 0, orgName, projectName)
                  == repositories.items + RepoEntriesFrom(Cfg(), repos, j, orgName, projectName)
      {
        var repo := repos[j];
        if !repo.JObj? {
          return;
        }
        var id := HashId(Cfg(), GetOr(repo.fields, "id", JStr([])));
        var name := Show(GetOr(repo.fields, "name", JStr([])));
        if id.None? || name.None? {
          return;
        }
        repositories.Append(Repository(Hashed(id.value), FullName(orgName, projectName, name.value), AzureDevOps, false));
        j := j + 1;
      }
    }

    /** The per-project `try` of `_process_projects`: list the project's repositories and append them. */
    method ProjectRepos(orgUrl: string, orgName: string, projectName: string, repositories: ListBuffer<Repository>)
      modifies transport, repositories
      ensures var s := ProjectReposRun(Cfg(), old(transport.sent), orgUrl, orgName, projectName);
              repositories.items == old(repositories.items) + s.value && transport.sent == s.log
    {
      var data := MakeRequest(ListRepositories(orgUrl, projectName));
      if data.None? {
        return;
      }
      var listed := ListField(data.value, "value");
      if listed.None? {
        return;
      }
      AppendRepoEntries(listed.value, orgName, projectName, repositories);
    }

    /** One project of `_process_projects`; the result says whether it raised. */
    method ProcessProject(project: Json, baseOrgUrl: string, repositories: ListBuffer<Repository>) returns (raised: bool)
      modifies transport, repositories
      ensures var s := ProjectStep(Cfg(), old(transport.sent), baseOrgUrl, project);
              raised == s.None?
              && (s.None? ==> repositories.items == old(repositories.items) && transport.sent == old(transport.sent))
              && (s.Some? ==> repositories.items == old(repositories.items) + s.value.value && transport.sent == s.value.log)
    {
      if !project.JObj? {
        return true;
      }
      var id, name := Lookup(project.fields, "id"), Lookup(project.fields, "name");
      if !Truthy(id) || !Truthy(name) {
        assert repositories.items == old(repositories.items) + [];
        return false;
      }
      var projectName := Show(name);
      if projectName.None? {
        return true;
      }
      ProjectRepos(baseOrgUrl, OrgDisplayName(baseUrl, baseOrgUrl), projectName.value, repositories);
      return false;
    }

    /** `_process_projects`; the result says whether an exception escaped it. */
    method ProcessProjects(projectsData: Json, repositories: ListBuffer<Repository>, baseOrgUrl: string)
      returns (raised: bool)
      modifies transport, repositories
      ensures var a := ProcessProjectsRun(Cfg(), old(transport.sent), projectsData, baseOrgUrl);
              repositories.items == old(repositories.items) + a.items && transport.sent == a.log && raised == a.raised
    {
      var listed := ListField(projectsData, "value");
      if listed.None? {
        assert repositories.items == old(repositories.items) + [];
        return true;
      }
      var projects := listed.value;
      ghost var start := repositories.items;
      ghost var appended: seq<Repository> := [];
      ghost var log := transport.sent;
      var i := 0;
      while i < |projects|
        invariant 0 <= i <= |projects|
        invariant repositories.items == start + appended
        invariant ProjectsLoop(Cfg(), baseOrgUrl, projects, 0, Acc([], log, false))
                  == ProjectsLoop(Cfg(), baseOrgUrl, projects, i, Acc(appended, transport.sent, false))
      {
        ghost var step := ProjectStep(Cfg(), transport.sent, baseOrgUrl, projects[i]);
        ghost var before := repositories.items;
        var stop := ProcessProject(projects[i], baseOrgUrl, repositories);
        if stop {
          return true;
        }
        assert repositories.items == before + step.value.value;
        ConcatAssoc(start, appended, step.value.value);
        appended := appended + step.value.value;
        i := i + 1;
      }
      return false;
    }

    /** One organisation's repositories: list its projects, then `_process_projects`. */
    method OrgRepos(orgUrl: string, repositories: ListBuffer<Repository>)
      modifies transport, repositories
      ensures var s := OrgReposRun(Cfg(), old(transport.sent), orgUrl);
              repositories.items == old(repositories.items) + s.value && transport.sent == s.log
    {
      var projectsData := MakeRequest(ListProjects(orgUrl));
      if projectsData.None? {
        assert repositories.items == old(repositories.items) + [];
        return;
      }
      var _ := ProcessProjects(projectsData.value, repositories, orgUrl);
    }

    /** One organisation of `get_repositories` on the default base; the result says whether it raised. */
    method ProcessOrganization(org: Json, repositories: ListBuffer<Repository>) returns (raised: bool)
      modifies transport, repositories
      ensures var s := RepoOrgStep(Cfg(), old(transport.sent), org);
              raised == s.None?
              && (s.None? ==> repositories.items == old(repositories.items) && transport.sent == old(transport.sent))
              && (s.Some? ==> repositories.items == old(repositories.items) + s.value.value && transport.sent == s.value.log)
    {
      if !org.JObj? {
        return true;
      }
      var name := Lookup(org.fields, "accountName");
      if !Truthy(name) {
        assert repositories.items == old(repositories.items) + [];
        return false;
      }
      var orgName := Show(name);
      if orgName.None? {
        return true;
      }
      OrgRepos(baseUrl + "/" + orgName.value, repositories);
      return false;
    }

    /** The default-base half of `get_repositories`: walk the account's organisations. */
    method AccountRepos() returns (repos: seq<Repository>)
      modifies transport
      ensures Run(repos, transport.sent) == AccountReposRun(Cfg(), old(transport.sent))
    {
      var orgsData := MakeRequest(ListAccounts(baseUrl));
      if orgsData.None? {
        return [];
      }
      var listed := ListField(orgsData.value, "value");
      if listed.None? {
        return [];
      }
      var orgs := listed.value;
      var repositories := new ListBuffer<Repository>();
      ghost var log := transport.sent;
      var i := 0;
      while i < |orgs|
        invariant 0 <= i <= |orgs|
        invariant RepoOrgsLoop(Cfg(), orgs, 0, Acc([], log, false))
                  == RepoOrgsLoop(Cfg(), orgs, i, Acc(repositories.items, transport.sent, false))
      {
        var stop := ProcessOrganization(orgs[i], repositories);
        if stop {
          return [];
        }
        i := i + 1;
      }
      return repositories.items;
    }

    /** `get_repositories`: the base's own projects on a custom base, else every organisation's. */
    method GetRepositories() returns (repos: seq<Repository>)
      modifies transport
      ensures Run(repos, transport.sent) == RepositoriesRun(Cfg(), old(transport.sent))
    {
      ghost var run := RepositoriesRun(Cfg(), transport.sent);
      if baseUrl != DefaultBase {
        assert run == OrgReposRun(Cfg(), transport.sent, baseUrl);
        var repositories := new ListBuffer<Repository>();
        OrgRepos(baseUrl, repositories);
        assert repositories.items == run.value;
        assert transport.sent == run.log;
        return repositories.items;
      }
      assert run == AccountReposRun(Cfg(), transport.sent);
      repos := AccountRepos();
    }

    /** `_get_repository_name_from_id`. */
    method GetRepositoryNameFromId(orgUrl: string, projectName: string, repoId: string) returns (name: Json)
      modifies transport
      ensures Run(name, transport.sent) == RepositoryNameFromIdRun(Cfg(), old(transport.sent), orgUrl, projectName, repoId)
    {
      var data := MakeRequest(RepositoryById(orgUrl, projectName, repoId));
      if data.None? || !data.value.JObj? {
        return JNull;
      }
      return Lookup(data.value.fields, "name");
    }

    /** `_get_project_repositories`. */
    method GetProjectRepositories(orgUrl: string, projectName: string) returns (names: seq<Json>)
      modifies transport
      ensures Run(names, transport.sent) == ProjectRepositoriesRun(Cfg(), old(transport.sent), orgUrl, projectName)
    {
      var data := MakeRequest(ListRepositories(orgUrl, projectName));
      if data.None? {
        return [];
      }
      var listed := ListField(data.value, "value");
      if listed.None? {
        return [];
      }
      var repos := listed.value;
      var repoNames: seq<Json> := [];
      var i := 0;
      while i < |repos|
        invariant 0 <= i <= |repos|
        invariant RepoNamesFrom(repos, 0, []) == RepoNamesFrom(repos, i, repoNames)
      {
        if !repos[i].JObj? {
          return [];
        }
        var name := Lookup(repos[i].fields, "name");
        if Truthy(name) {
          repoNames := repoNames + [name];
        }
        i := i + 1;
      }
      return repoNames;
    }

    /** `_get_work_item_repository_association`. */
    method GetWorkItemRepositoryAssociation(workItem: map<string, Json>, orgUrl: string, projectName: string,
                                            orgName: string) returns (r: Option<string>)
      modifies transport
      ensures Run(r, transport.sent) == AssociationRun(Cfg(), old(transport.sent), workItem, orgUrl, projectName, orgName)
    {
      var listed := Items(GetOr(workItem, "relations", JArr([])));
      if listed.None? {
        return None;
      }
      var relations := listed.value;
      ghost var log := transport.sent;
      var i := 0;
      while i < |relations|
        invariant 0 <= i <= |relations|
        invariant ScanRelations(Cfg(), log, orgUrl, projectName, relations, 0)
                  == ScanRelations(Cfg(), transport.sent, orgUrl, projectName, relations, i)
      {
        var target := RelationTarget(relations[i]);
        if target.LinkRaised? {
          return None;
        }
        if target.Candidate? {
          var name := GetRepositoryNameFromId(orgUrl, projectName, target.repoId);
          if Truthy(name) {
            return RepoLabel(orgName, projectName, name);
          }
        }
        i := i + 1;
      }
      var repos := GetProjectRepositories(orgUrl, projectName);
      if repos == [] {
        return None;
      }
      return RepoLabel(orgName, projectName, repos[0]);
    }

    /** One work item of `_process_work_items`: append its task, if it yields one. */
    method ProcessWorkItem(workItem: map<string, Json>, orgUrl: string, projectName: string, orgName: string,
                           suggestedTasks: ListBuffer<SuggestedTask>)
      modifies transport, suggestedTasks
      ensures var s := ProcessItem(Cfg(), old(transport.sent), workItem, orgUrl, projectName, orgName);
              suggestedTasks.items == old(suggestedTasks.items) + Emitted(s.value) && transport.sent == s.log
    {
      var id := Lookup(workItem, "id");
      var fields := GetOr(workItem, "fields", JObj(map[]));
      if !fields.JObj? {
        assert suggestedTasks.items == old(suggestedTasks.items) + [];
        return;
      }
      var title := GetOr(fields.fields, "System.Title", JStr(UntitledWorkItem));
      var kind := GetOr(fields.fields, "System.WorkItemType", JStr(DefaultWorkItemType));
      var repoName := GetWorkItemRepositoryAssociation(workItem, orgUrl, projectName, orgName);
      if repoName.None? || !kind.JStr? || !id.JInt? || !title.JStr? {
        assert suggestedTasks.items == old(suggestedTasks.items) + [];
        return;
      }
      suggestedTasks.Append(SuggestedTask(AzureDevOps, MapWorkItemTypeToTaskType(kind.s), repoName.value, id.i, title.s));
    }

    /** `_process_work_items`. */
    method ProcessWorkItems(orgUrl: string, projectName: string, workItemIds: seq<Json>,
                            suggestedTasks: ListBuffer<SuggestedTask>)
      modifies transport, suggestedTasks
      ensures var s := ProcessWorkItemsRun(Cfg(), old(transport.sent), orgUrl, projectName, workItemIds);
              suggestedTasks.items == old(suggestedTasks.items) + s.value && transport.sent == s.log
    {
      var response := MakeRequest(WorkItemDetails(orgUrl, projectName, workItemIds));
      if response.None? {
        assert suggestedTasks.items == old(suggestedTasks.items) + [];
        return;
      }
      var value := Get(response.value, "value", JArr([]));
      if value.None? {
        assert suggestedTasks.items == old(suggestedTasks.items) + [];
        return;
      }
      var orgName := OrgDisplayName(baseUrl, orgUrl);
      var listed := Items(value.value);
      if listed.None? {
        assert suggestedTasks.items == old(suggestedTasks.items) + [];
        return;
      }
      var workItems := listed.value;
      ghost var start := suggestedTasks.items;
      ghost var appended: seq<SuggestedTask> := [];
      ghost var log := transport.sent;
      var i := 0;
      while i < |workItems|
        invariant 0 <= i <= |workItems|
        invariant suggestedTasks.items == start + appended
        invariant ProcessItemsLoop(Cfg(), orgUrl, projectName, orgName, workItems, 0, Acc([], log, false))
                  == ProcessItemsLoop(Cfg(), orgUrl, projectName, orgName, workItems, i, Acc(appended, transport.sent, false))
      {
        if !workItems[i].JObj? {
          return;
        }
        ghost var step := ProcessItem(Cfg(), transport.sent, workItems[i].fields, orgUrl, projectName, orgName);
        ghost var before := suggestedTasks.items;
        ProcessWorkItem(workItems[i].fields, orgUrl, projectName, orgName, suggestedTasks);
        assert suggestedTasks.items == before + Emitted(step.value);
        ConcatAssoc(start, appended, Emitted(step.value));
        appended := appended + Emitted(step.value);
        i := i + 1;
      }
    }

    /** The per-project `try` of `_get_work_items_for_organization`: the WIQL query and its work items. */
    method ProjectWorkItems(orgUrl: string, projectName: string, userEmail: string,
                            suggestedTasks: ListBuffer<SuggestedTask>)
      modifies transport, suggestedTasks
      ensures var s := ProjectWorkItemsRun(Cfg(), old(transport.sent), orgUrl, projectName, userEmail);
              suggestedTasks.items == old(suggestedTasks.items) + s.value && transport.sent == s.log
    {
      var response := MakeRequest(Wiql(orgUrl, projectName, userEmail));
      if response.None? {
        return;
      }
      var workItems := Get(response.value, "workItems", JArr([]));
      if workItems.None? || !Truthy(workItems.value) {
        return;
      }
      var listed := Items(workItems.value);
      if listed.None? {
        return;
      }
      var ids := WorkItemIds(listed.value);
      if ids.None? || ids.value == [] {
        return;
      }
      ProcessWorkItems(orgUrl, projectName, ids.value, suggestedTasks);
    }

    /** One project of `_get_work_items_for_organization`; the result says whether it raised. */
    method WorkItemProject(project: Json, orgUrl: string, userEmail: string, suggestedTasks: ListBuffer<SuggestedTask>)
      returns (raised: bool)
      modifies transport, suggestedTasks
      ensures var s := WorkItemProjectStep(Cfg(), old(transport.sent), orgUrl, userEmail, project);
              raised == s.None?
              && (s.None? ==> suggestedTasks.items == old(suggestedTasks.items) && transport.sent == old(transport.sent))
              && (s.Some? ==> suggestedTasks.items == old(suggestedTasks.items) + s.value.value && transport.sent == s.value.log)
    {
      if !project.JObj? {
        return true;
      }
      var name := Lookup(project.fields, "name");
      if !Truthy(name) {
        assert suggestedTasks.items == old(suggestedTasks.items) + [];
        return false;
      }
      var projectName := QuoteArg(name);
      if projectName.None? {
        return true;
      }
      ProjectWorkItems(orgUrl, projectName.value, userEmail, suggestedTasks);
      return false;
    }

    /** `_get_work_items_for_organization`. */
    method GetWorkItemsForOrganization(orgUrl: string, userEmail: string, suggestedTasks: ListBuffer<SuggestedTask>)
      modifies transport, suggestedTasks
      ensures var w := WorkItemsForOrgRun(Cfg(), old(transport.sent), orgUrl, userEmail);
              suggestedTasks.items == old(suggestedTasks.items) + w.value && transport.sent == w.log
    {
      var projectsData := MakeRequest(ListProjects(orgUrl));
      if projectsData.None? {
        assert suggestedTasks.items == old(suggestedTasks.items) + [];
        return;
      }
      var listed := ListField(projectsData.value, "value");
      if listed.None? {
        assert suggestedTasks.items == old(suggestedTasks.items) + [];
        return;
      }
      var projects := listed.value;
      ghost var start := suggestedTasks.items;
      ghost var appended: seq<SuggestedTask> := [];
      ghost var log := transport.sent;
      var i := 0;
      while i < |projects|
        invariant 0 <= i <= |projects|
        invariant suggestedTasks.items == start + appended
        invariant WorkItemProjectsLoop(Cfg(), orgUrl, userEmail, projects, 0, Acc([], log, false))
                  == WorkItemProjectsLoop(Cfg(), orgUrl, userEmail, projects, i, Acc(appended, transport.sent, false))
      {
        ghost var step := WorkItemProjectStep(Cfg(), transport.sent, orgUrl, userEmail, projects[i]);
        ghost var before := suggestedTasks.items;
        var stop := WorkItemProject(projects[i], orgUrl, userEmail, suggestedTasks);
        if stop {
          return;
        }
        assert suggestedTasks.items == before + step.value.value;
        ConcatAssoc(start, appended, step.value.value);
        appended := appended + step.value.value;
        i := i + 1;
      }
    }

    /** One organisation of `get_suggested_tasks` on the default base; the result says whether it raised. */
    method TaskOrganization(org: Json, userEmail: string, suggestedTasks: ListBuffer<SuggestedTask>) returns (raised: bool)
      modifies transport, suggestedTasks
      ensures var s := TaskOrgStep(Cfg(), old(transport.sent), userEmail, org);
              raised == s.None?
              && (s.None? ==> suggestedTasks.items == old(suggestedTasks.items) && transport.sent == old(transport.sent))
              && (s.Some? ==> suggestedTasks.items == old(suggestedTasks.items) + s.value.value && transport.sent == s.value.log)
    {
      if !org.JObj? {
        return true;
      }
      var name := Lookup(org.fields, "accountName");
      if !Truthy(name) {
        assert suggestedTasks.items == old(suggestedTasks.items) + [];
        return false;
      }
      var orgName := Show(name);
      if orgName.None? {
        return true;
      }
      GetWorkItemsForOrganization(baseUrl + "/" + orgName.value, userEmail, suggestedTasks);
      return false;
    }

    /** The default-base half of `get_suggested_tasks`: walk the account's organisations. */
    method AccountTasks(userEmail: string) returns (tasks: seq<SuggestedTask>)
      modifies transport
      ensures Run(tasks, transport.sent) == AccountTasksRun(Cfg(), old(transport.sent), userEmail)
    {
      var orgsData := MakeRequest(ListAccounts(baseUrl));
      if orgsData.None? {
        return [];
      }
      var listed := ListField(orgsData.value, "value");
      if listed.None? {
        return [];
      }
      var orgs := listed.value;
      var suggestedTasks := new ListBuffer<SuggestedTask>();
      ghost var log := transport.sent;
      var i := 0;
      while i < |orgs|
        invariant 0 <= i <= |orgs|
        invariant TaskOrgsLoop(Cfg(), userEmail, orgs, 0, Acc([], log, false))
                  == TaskOrgsLoop(Cfg(), userEmail, orgs, i, Acc(suggestedTasks.items, transport.sent, false))
      {
        var stop := TaskOrganization(orgs[i], userEmail, suggestedTasks);
        if stop {
          return suggestedTasks.items;
        }
        i := i + 1;
      }
      return suggestedTasks.items;
    }

    /** `get_suggested_tasks`: the user's email, then the work items assigned to it. */
    method GetSuggestedTasks() returns (tasks: seq<SuggestedTask>)
      modifies transport
      ensures Run(tasks, transport.sent) == SuggestedTasksRun(Cfg(), old(transport.sent))
    {
      ghost var run := SuggestedTasksRun(Cfg(), transport.sent);
      ghost var u := UserRun(Cfg(), transport.sent);
      var user := GetUser();
      if user.Failure? || user.value.email == [] {
        return [];
      }
      if baseUrl != DefaultBase {
        assert run == WorkItemsForOrgRun(Cfg(), u.log, baseUrl, user.value.email);
        var suggestedTasks := new ListBuffer<SuggestedTask>();
        GetWorkItemsForOrganization(baseUrl, user.value.email, suggestedTasks);
        assert suggestedTasks.items == run.value;
        assert transport.sent == run.log;
        return suggestedTasks.items;
      }
      assert run == AccountTasksRun(Cfg(), u.log, user.value.email);
      tasks := AccountTasks(user.value.email);
    }

    /** `get_repository_details_from_repo_name`. */
    method GetRepositoryDetailsFromRepoName(repository: string) returns (r: Result<Repository, ServiceError>)
      modifies transport
      ensures Run(r, transport.sent) == RepositoryDetailsRun(Cfg(), old(transport.sent), repository)
    {
      var parts := Split(repository, '/');
      if |parts| != 3 {
        return Failure(ValueError(RepoFormatMessage));
      }
      var orgName, projectName, repoName := parts[0], parts[1], parts[2];
      var data := MakeRequest(RepositoryByName(orgName, projectName, repoName));
      if data.None? || !data.value.JObj? {
        return Failure(AuthenticationError("Cannot access repository " + repository));
      }
      return Success(Repository(Native(GetOr(data.value.fields, "id", JStr([]))), repository, AzureDevOps, false));
    }

    /** The ref loop of `get_branches`: the branches in order, `[]` as soon as a ref raises. */
    static method CollectBranches(refs: seq<Json>) returns (branches: seq<Branch>)
      ensures branches == (if BranchesFrom(refs, 0).Some? then BranchesFrom(refs, 0).value else [])
    {
      branches := [];
      PrependNothing(BranchesFrom(refs, 0));
      var i := 0;
      while i < |refs|
        invariant 0 <= i <= |refs|
        invariant BranchesFrom(refs, 0) == Prepend(branches, BranchesFrom(refs, i))
      {
        var ref := refs[i];
        if !ref.JObj? {
          return [];
        }
        var name := GetOr(ref.fields, "name", JStr([]));
        if !name.JStr? {
          return [];
        }
        var branchName := RemoveAll(name.s, BranchPrefix);
        if branchName != [] {
          var sha := GetOr(ref.fields, "objectId", JStr([]));
          if !sha.JStr? {
            return [];
          }
          PrependTwice(branches, [Branch(branchName, sha.s, false)], BranchesFrom(refs, i + 1));
          branches := branches + [Branch(branchName, sha.s, false)];
        }
        i := i + 1;
      }
      assert branches + [] == branches;
    }

    /** `get_branches`: parse the name, list the refs under "refs/heads/", keep the branches. */
    method GetBranches(repository: string) returns (r: Result<seq<Branch>, ServiceError>)
      modifies transport
      ensures Run(r, transport.sent) == BranchesRun(Cfg(), old(transport.sent), repository)
    {
      var parts := Split(repository, '/');
      if |parts| != 3 {
        return Failure(ValueError(RepoFormatMessage));
      }
      var orgName, projectName, repoName := parts[0], parts[1], parts[2];
      assert ParseRepoName(repository) == Success((orgName, projectName, repoName));
      var request := if baseUrl != DefaultBase then ListRefs(None, projectName, repoName)
                     else ListRefs(Some(orgName), projectName, repoName);
      assert request == RefsRequest(baseUrl, orgName, projectName, repoName);
      var data := MakeRequest(request);
      if data.None? {
        return Success([]);
      }
      var listed := ListField(data.value, "value");
      if listed.None? {
        return Success([]);
      }
      var branches := CollectBranches(listed.value);
      return Success(branches);
    }
  }
}
