/**
 * What each operation of the adapter does, as functions of the
 * configuration, the requests sent so far and the replies the API gives.
 * A run returns its result together with the log of every request sent;
 * the k-th request ever sent receives the k-th canned reply. Appending
 * walks return the items they appended to the caller's list, the log, and
 * whether an exception escaped them (items appended before it stay in the
 * caller's list, exactly as with Python's in-place `append`).
 */
module Walks {
  import opened Wrappers
  import opened Strings
  import opened JsonModel
  import opened Types
  import opened Auth
  import opened BaseUrl
  import opened UrlHost
  import opened RepoNames

  /** The service's configuration and the API's replies, in the order they are given. */
  datatype Config = Config(baseUrl: string, token: Option<string>, hash: Json -> int, replies: seq<Response>)

  /** A result and the request log after computing it. */
  datatype Run<T> = Run(value: T, log: seq<Request>)

  /** The items appended to a caller's list, the request log, and whether an exception escaped. */
  datatype Acc<T> = Acc(items: seq<T>, log: seq<Request>, raised: bool)

  /** `& 0x7FFFFFFF` keeps the low 31 bits, which for every integer is this Euclidean remainder. */
  const IdModulus: int := 0x8000_0000

  const UntitledWorkItem: string := "Untitled Work Item"
  const DefaultWorkItemType: string := "Work Item"
  const BranchPrefix: string := "refs/heads/"

  /** The reply the k-th request receives: `None` for an error reply or when the replies are used up. */
  function ReplyAt(replies: seq<Response>, k: nat): Option<Json> {
    if k < |replies| && replies[k].Reply? then Some(replies[k].body) else None
  }

  /**
   * `_make_request`: without a token it raises before anything is sent;
   * otherwise the request is sent and its reply is the decoded body or a
   * failure.
   */
  function Fetch(cfg: Config, log: seq<Request>, req: Request): Run<Option<Json>> {
    if AuthHeaders(cfg.token).Failure? then Run(None, log)
    else Run(ReplyAt(cfg.replies, |log|), log + [req])
  }

  /** `hash(v) & 0x7FFFFFFF`; lists and dicts are unhashable (TypeError). */
  function HashId(cfg: Config, v: Json): (r: Option<int>)
    ensures r.None? <==> v.JArr? || v.JObj?
    ensures r.Some? ==> 0 <= r.value < IdModulus
  {
    if v.JArr? || v.JObj? then None else Some(cfg.hash(v) % IdModulus)
  }

  /** The elements of an optional value as a sequence of zero or one. */
  function Emitted<T>(o: Option<T>): seq<T> {
    if o.Some? then [o.value] else []
  }

  // ---------------------------------------------------------------------
  // get_user
  // ---------------------------------------------------------------------

  /** The user `get_user` returns when only the token probe succeeds. */
  const FallbackUser: User := User(1, "ado-user", "", "Azure DevOps User", "ado-user@example.com")

  /** The user built from a connection-data reply, `None` where that tier falls through. */
  function ConnectionUser(cfg: Config, data: Json): Option<User> {
    match Get(data, "authenticatedUser", JObj(map[]))
    case None => None
    case Some(au) =>
      if !Truthy(au) || !au.JObj? then None
      else
        var display := GetOr(au.fields, "providerDisplayName", JStr([]));
        match HashId(cfg, GetOr(au.fields, "id", JStr([])))
        case None => None
        case Some(id) => if display.JStr? then Some(User(id, display.s, [], display.s, display.s)) else None
  }

  /** The avatar URL at `coreAttributes.Avatar.value.value`, each level defaulting to `{}`. */
  function AvatarUrl(profile: map<string, Json>): Option<string> {
    var core := GetOr(profile, "coreAttributes", JObj(map[]));
    if !core.JObj? then None
    else
      var avatar := GetOr(core.fields, "Avatar", JObj(map[]));
      if !avatar.JObj? then None
      else
        var value := GetOr(avatar.fields, "value", JObj(map[]));
        if !value.JObj? then None
        else
          var url := GetOr(value.fields, "value", JStr([]));
          if url.JStr? then Some(url.s) else None
  }

  /** The user built from a profile reply, `None` where that tier fails. */
  function ProfileUser(cfg: Config, data: Json): Option<User> {
    if !data.JObj? then None
    else
      var email := GetOr(data.fields, "emailAddress", JStr([]));
      var name := GetOr(data.fields, "displayName", JStr([]));
      match (HashId(cfg, GetOr(data.fields, "id", JStr([]))), AvatarUrl(data.fields))
      case (Some(id), Some(avatar)) =>
        if email.JStr? && name.JStr? then Some(User(id, email.s, avatar, name.s, email.s)) else None
      case _ => None
  }

  /** The first tier: connection data, tried on a custom base only. */
  function ConnectionTier(cfg: Config, log: seq<Request>): Run<Option<User>> {
    if cfg.baseUrl == DefaultBase then Run(None, log)
    else
      var f := Fetch(cfg, log, ConnectionData(cfg.baseUrl));
      Run(if f.value.Some? then ConnectionUser(cfg, f.value.value) else None, f.log)
  }

  /** The second tier: the profile API. */
  function ProfileTier(cfg: Config, log: seq<Request>): Run<Option<User>> {
    var f := Fetch(cfg, log, Profile);
    Run(if f.value.Some? then ProfileUser(cfg, f.value.value) else None, f.log)
  }

  /** The request of the last tier, which only checks that the token works. */
  function ProbeRequest(baseUrl: string): Request {
    if baseUrl != DefaultBase then ProbeProjects(baseUrl) else ProbeAccounts(baseUrl)
  }

  /** `get_user`: the first tier that yields a user, else AuthenticationError. */
  function UserRun(cfg: Config, log: seq<Request>): Run<Result<User, ServiceError>> {
    var c := ConnectionTier(cfg, log);
    if c.value.Some? then Run(Success(c.value.value), c.log)
    else
      var p := ProfileTier(cfg, c.log);
      if p.value.Some? then Run(Success(p.value.value), p.log)
      else
        var probe := Fetch(cfg, p.log, ProbeRequest(cfg.baseUrl));
        if probe.value.Some? then Run(Success(FallbackUser), probe.log)
        else Run(Failure(AuthenticationError(InvalidTokenMessage)), probe.log)
  }

  // ---------------------------------------------------------------------
  // get_repositories / _process_projects
  // ---------------------------------------------------------------------

  /** One repository of a project listing, `None` where building it raises. */
  function RepoEntry(cfg: Config, repo: Json, orgName: string, projectName: string): Option<Repository> {
    if !repo.JObj? then None
    else
      match (HashId(cfg, GetOr(repo.fields, "id", JStr([]))), Show(GetOr(repo.fields, "name", JStr([]))))
      case (Some(id), Some(name)) =>
        Some(Repository(Hashed(id), FullName(orgName, projectName, name), AzureDevOps, false))
      case _ => None
  }

  /** The repositories appended for `repos[i..]`: one per entry, up to the first entry that raises. */
  function RepoEntriesFrom(cfg: Config, repos: seq<Json>, i: nat, orgName: string, projectName: string): seq<Repository>
    requires i <= |repos|
    decreases |repos| - i
  {
    if i == |repos| then []
    else
      match RepoEntry(cfg, repos[i], orgName, projectName)
      case None => []
      case Some(r) => [r] + RepoEntriesFrom(cfg, repos, i + 1, orgName, projectName)
  }

  /** The repositories of one project, appended inside the per-project `try`. */
  function ProjectReposRun(cfg: Config, log: seq<Request>, orgUrl: string, orgName: string, projectName: string)
    : Run<seq<Repository>>
  {
    var f := Fetch(cfg, log, ListRepositories(orgUrl, projectName));
    if f.value.None? then Run([], f.log)
    else
      match ListField(f.value.value, "value")
      case None => Run([], f.log)
      case Some(repos) => Run(RepoEntriesFrom(cfg, repos, 0, orgName, projectName), f.log)
  }

  /**
   * One project of `_process_projects`: `None` when it raises (a project
   * that is not a dict, a name that cannot be rendered), else what it
   * appends and the log after it. Projects without a truthy id and name
   * are skipped.
   */
  function ProjectStep(cfg: Config, log: seq<Request>, orgUrl: string, project: Json): Option<Run<seq<Repository>>> {
    if !project.JObj? then None
    else
      var id, name := Lookup(project.fields, "id"), Lookup(project.fields, "name");
      if !Truthy(id) || !Truthy(name) then Some(Run([], log))
      else
        match Show(name)
        case None => None
        case Some(projectName) =>
          Some(ProjectReposRun(cfg, log, orgUrl, OrgDisplayName(cfg.baseUrl, orgUrl), projectName))
  }

  /** The loop of `_process_projects` from project `i` on. */
  function ProjectsLoop(cfg: Config, orgUrl: string, projects: seq<Json>, i: nat, acc: Acc<Repository>): Acc<Repository>
    requires i <= |projects|
    decreases |projects| - i
  {
    if i == |projects| then acc
    else
      match ProjectStep(cfg, acc.log, orgUrl, projects[i])
      case None => acc.(raised := true)
      case Some(step) => ProjectsLoop(cfg, orgUrl, projects, i + 1, Acc(acc.items + step.value, step.log, false))
  }

  /** `_process_projects`: what it appends, the requests, and whether it raised. */
  function ProcessProjectsRun(cfg: Config, log: seq<Request>, projectsData: Json, orgUrl: string): Acc<Repository> {
    match ListField(projectsData, "value")
    case None => Acc([], log, true)
    case Some(projects) => ProjectsLoop(cfg, orgUrl, projects, 0, Acc([], log, false))
  }

  /** One organisation's repositories: its project listing, then `_process_projects` on it. */
  function OrgReposRun(cfg: Config, log: seq<Request>, orgUrl: string): Run<seq<Repository>> {
    var f := Fetch(cfg, log, ListProjects(orgUrl));
    if f.value.None? then Run([], f.log)
    else
      var p := ProcessProjectsRun(cfg, f.log, f.value.value, orgUrl);
      Run(p.items, p.log)
  }

  /**
   * One organisation of `get_repositories` on the default base: `None`
   * when it raises outside the per-organisation handler, else what it
   * appends and the log after it.
   */
  function RepoOrgStep(cfg: Config, log: seq<Request>, org: Json): Option<Run<seq<Repository>>> {
    if !org.JObj? then None
    else
      var name := Lookup(org.fields, "accountName");
      if !Truthy(name) then Some(Run([], log))
      else
        match Show(name)
        case None => None
        case Some(orgName) => Some(OrgReposRun(cfg, log, cfg.baseUrl + "/" + orgName))
  }

  /** The organisation loop of `get_repositories` on the default base. */
  function RepoOrgsLoop(cfg: Config, orgs: seq<Json>, i: nat, acc: Acc<Repository>): Acc<Repository>
    requires i <= |orgs|
    decreases |orgs| - i
  {
    if i == |orgs| then acc
    else
      match RepoOrgStep(cfg, acc.log, orgs[i])
      case None => acc.(raised := true)
      case Some(step) => RepoOrgsLoop(cfg, orgs, i + 1, Acc(acc.items + step.value, step.log, false))
  }

  /** `get_repositories`: never raises; a failure outside the per-branch handlers gives `[]`. */
  function RepositoriesRun(cfg: Config, log: seq<Request>): Run<seq<Repository>> {
    if cfg.baseUrl != DefaultBase then OrgReposRun(cfg, log, cfg.baseUrl)
    else AccountReposRun(cfg, log)
  }

  /** The default-base half of `get_repositories`: every organisation of the account listing. */
  function AccountReposRun(cfg: Config, log: seq<Request>): Run<seq<Repository>> {
    var f := Fetch(cfg, log, ListAccounts(cfg.baseUrl));
    if f.value.None? then Run([], f.log)
    else
      match ListField(f.value.value, "value")
      case None => Run([], f.log)
      case Some(orgs) =>
        var a := RepoOrgsLoop(cfg, orgs, 0, Acc([], f.log, false));
        Run(if a.raised then [] else a.items, a.log)
  }

  // ---------------------------------------------------------------------
  // Work-item repository association
  // ---------------------------------------------------------------------

  /** What one relation of a work item offers the association scan. */
  datatype LinkCheck = NotALink | Candidate(repoId: string) | LinkRaised

  /** The '/'-segment after the first segment equal to "repositories", if there is one. */
  function CommitRepositoryId(url: string): (r: Option<string>)
    ensures r.Some? ==> '/' !in r.value
  {
    var parts := Split(url, '/');
    match FirstIndex(parts, "repositories")
    case None => None
    case Some(k) => if k + 1 < |parts| then Some(parts[k + 1]) else None
  }

  /**
   * One relation: an ArtifactLink whose url mentions both "git/repositories"
   * and "commits" offers the segment after "repositories"; a value on which
   * `.get`, `in` or `.split` raises ends the scan.
   */
  function RelationTarget(relation: Json): LinkCheck {
    if !relation.JObj? then LinkRaised
    else
      var url := GetOr(relation.fields, "url", JStr([]));
      match (ContainsText(GetOr(relation.fields, "rel", JStr([])), "ArtifactLink"),
             ContainsText(url, "git/repositories"), ContainsText(url, "commits"))
      case (None, _, _) => LinkRaised
      case (Some(false), _, _) => NotALink
      case (Some(true), None, _) => LinkRaised
      case (Some(true), Some(false), _) => NotALink
      case (Some(true), Some(true), None) => LinkRaised
      case (Some(true), Some(true), Some(false)) => NotALink
      case (Some(true), Some(true), Some(true)) =>
        if !url.JStr? then LinkRaised
        else if CommitRepositoryId(url.s).None? then NotALink
        else Candidate(CommitRepositoryId(url.s).value)
  }

  /** `_get_repository_name_from_id`: the `name` of the repository reply, `None` on any failure. */
  function RepositoryNameFromIdRun(cfg: Config, log: seq<Request>, orgUrl: string, projectName: string, repoId: string)
    : Run<Json>
  {
    var f := Fetch(cfg, log, RepositoryById(orgUrl, projectName, repoId));
    Run(if f.value.Some? && f.value.value.JObj? then Lookup(f.value.value.fields, "name") else JNull, f.log)
  }

  /** The outcome of scanning a work item's relations. */
  datatype Scan = Found(name: Json) | NotFound | ScanRaised

  /** The relation scan from relation `i` on: the first candidate whose name lookup is truthy wins. */
  function ScanRelations(cfg: Config, log: seq<Request>, orgUrl: string, projectName: string, relations: seq<Json>, i: nat)
    : Run<Scan>
    requires i <= |relations|
    decreases |relations| - i
  {
    if i == |relations| then Run(NotFound, log)
    else
      match RelationTarget(relations[i])
      case LinkRaised => Run(ScanRaised, log)
      case NotALink => ScanRelations(cfg, log, orgUrl, projectName, relations, i + 1)
      case Candidate(repoId) =>
        var n := RepositoryNameFromIdRun(cfg, log, orgUrl, projectName, repoId);
        if Truthy(n.value) then Run(Found(n.value), n.log)
        else ScanRelations(cfg, n.log, orgUrl, projectName, relations, i + 1)
  }

  /** The loop of `_get_project_repositories` from entry `i` on: truthy names in order; `None` where it raises. */
  function RepoNamesFrom(repos: seq<Json>, i: nat, names: seq<Json>): Option<seq<Json>>
    requires i <= |repos|
    decreases |repos| - i
  {
    if i == |repos| then Some(names)
    else if !repos[i].JObj? then None
    else
      var name := Lookup(repos[i].fields, "name");
      RepoNamesFrom(repos, i + 1, if Truthy(name) then names + [name] else names)
  }

  /** `_get_project_repositories`: the truthy repository names, `[]` on any failure. */
  function ProjectRepositoriesRun(cfg: Config, log: seq<Request>, orgUrl: string, projectName: string): Run<seq<Json>> {
    var f := Fetch(cfg, log, ListRepositories(orgUrl, projectName));
    if f.value.None? then Run([], f.log)
    else
      match ListField(f.value.value, "value")
      case None => Run([], f.log)
      case Some(repos) =>
        var names := RepoNamesFrom(repos, 0, []);
        Run(if names.Some? then names.value else [], f.log)
  }

  /** `f'{org_name}/{project_name}/{name}'`, `None` where rendering the name fails. */
  function RepoLabel(orgName: string, projectName: string, name: Json): Option<string> {
    match Show(name)
    case None => None
    case Some(n) => Some(FullName(orgName, projectName, n))
  }

  /**
   * `_get_work_item_repository_association`: a repository named by a commit
   * link, else the project's first repository, else none (also when
   * anything raises).
   */
  function AssociationRun(cfg: Config, log: seq<Request>, workItem: map<string, Json>, orgUrl: string,
                          projectName: string, orgName: string): Run<Option<string>>
  {
    match Items(GetOr(workItem, "relations", JArr([])))
    case None => Run(None, log)
    case Some(relations) =>
      var s := ScanRelations(cfg, log, orgUrl, projectName, relations, 0);
      match s.value
      case ScanRaised => Run(None, s.log)
      case Found(name) => Run(RepoLabel(orgName, projectName, name), s.log)
      case NotFound =>
        var r := ProjectRepositoriesRun(cfg, s.log, orgUrl, projectName);
        Run(if r.value == [] then None else RepoLabel(orgName, projectName, r.value[0]), r.log)
  }

  // ---------------------------------------------------------------------
  // get_suggested_tasks / _get_work_items_for_organization / _process_work_items
  // ---------------------------------------------------------------------

  /** One work item of a details reply: its task, if it has a repository and a valid id, title and type. */
  function ProcessItem(cfg: Config, log: seq<Request>, workItem: map<string, Json>, orgUrl: string,
                       projectName: string, orgName: string): Run<Option<SuggestedTask>>
  {
    var id := Lookup(workItem, "id");
    var fields := GetOr(workItem, "fields", JObj(map[]));
    if !fields.JObj? then Run(None, log)
    else
      var title := GetOr(fields.fields, "System.Title", JStr(UntitledWorkItem));
      var kind := GetOr(fields.fields, "System.WorkItemType", JStr(DefaultWorkItemType));
      var a := AssociationRun(cfg, log, workItem, orgUrl, projectName, orgName);
      if a.value.None? || !kind.JStr? || !id.JInt? || !title.JStr? then Run(None, a.log)
      else Run(Some(SuggestedTask(AzureDevOps, MapWorkItemTypeToTaskType(kind.s), a.value.value, id.i, title.s)), a.log)
  }

  /**
   * The item loop of `_process_work_items` from item `i` on. An item that
   * is not a dict makes the handler's own `.get` raise, which ends the loop.
   */
  function ProcessItemsLoop(cfg: Config, orgUrl: string, projectName: string, orgName: string, items: seq<Json>,
                            i: nat, acc: Acc<SuggestedTask>): Acc<SuggestedTask>
    requires i <= |items|
    decreases |items| - i
  {
    if i == |items| then acc
    else if !items[i].JObj? then acc.(raised := true)
    else
      var step := ProcessItem(cfg, acc.log, items[i].fields, orgUrl, projectName, orgName);
      ProcessItemsLoop(cfg, orgUrl, projectName, orgName, items, i + 1, Acc(acc.items + Emitted(step.value), step.log, false))
  }

  /** `_process_work_items`: the tasks appended; every failure is caught inside. */
  function ProcessWorkItemsRun(cfg: Config, log: seq<Request>, orgUrl: string, projectName: string, ids: seq<Json>)
    : Run<seq<SuggestedTask>>
  {
    var f := Fetch(cfg, log, WorkItemDetails(orgUrl, projectName, ids));
    if f.value.None? then Run([], f.log)
    else
      match Get(f.value.value, "value", JArr([]))
      case None => Run([], f.log)
      case Some(v) =>
        match Items(v)
        case None => Run([], f.log)
        case Some(items) =>
          var a := ProcessItemsLoop(cfg, orgUrl, projectName, OrgDisplayName(cfg.baseUrl, orgUrl), items, 0,
                                    Acc([], f.log, false));
          Run(a.items, a.log)
  }

  /** `[str(wi['id']) for wi in work_items]`, keeping the raw ids; `None` where an element has no `id`. */
  function WorkItemIds(items: seq<Json>): (r: Option<seq<Json>>)
    ensures r.None? <==> exists k :: 0 <= k < |items| && (!items[k].JObj? || "id" !in items[k].fields)
    ensures r.Some? ==> |r.value| == |items|
                        && forall k :: 0 <= k < |items| ==> items[k].JObj? && r.value[k] == items[k].fields["id"]
  {
    if items == [] then Some([])
    else if !items[0].JObj? || "id" !in items[0].fields then None
    else
      match WorkItemIds(items[1..])
      case None => None
      case Some(rest) => Some([items[0].fields["id"]] + rest)
  }

  /** The per-project body of `_get_work_items_for_organization` (its inner `try`). */
  function ProjectWorkItemsRun(cfg: Config, log: seq<Request>, orgUrl: string, projectName: string, email: string)
    : Run<seq<SuggestedTask>>
  {
    var f := Fetch(cfg, log, Wiql(orgUrl, projectName, email));
    if f.value.None? then Run([], f.log)
    else
      match Get(f.value.value, "workItems", JArr([]))
      case None => Run([], f.log)
      case Some(workItems) =>
        if !Truthy(workItems) then Run([], f.log)
        else
          match Items(workItems)
          case None => Run([], f.log)
          case Some(items) =>
            match WorkItemIds(items)
            case None => Run([], f.log)
            case Some(ids) => if ids == [] then Run([], f.log) else ProcessWorkItemsRun(cfg, f.log, orgUrl, projectName, ids)
  }

  /**
   * One project of `_get_work_items_for_organization`: `None` when it
   * raises outside the per-project handler (not a dict, a name `quote`
   * rejects), else what it appends and the log after it.
   */
  function WorkItemProjectStep(cfg: Config, log: seq<Request>, orgUrl: string, email: string, project: Json)
    : Option<Run<seq<SuggestedTask>>>
  {
    if !project.JObj? then None
    else
      var name := Lookup(project.fields, "name");
      if !Truthy(name) then Some(Run([], log))
      else
        match QuoteArg(name)
        case None => None
        case Some(projectName) => Some(ProjectWorkItemsRun(cfg, log, orgUrl, projectName, email))
  }

  /** The project loop of `_get_work_items_for_organization` from project `i` on. */
  function WorkItemProjectsLoop(cfg: Config, orgUrl: string, email: string, projects: seq<Json>, i: nat,
                                acc: Acc<SuggestedTask>): Acc<SuggestedTask>
    requires i <= |projects|
    decreases |projects| - i
  {
    if i == |projects| then acc
    else
      match WorkItemProjectStep(cfg, acc.log, orgUrl, email, projects[i])
      case None => acc.(raised := true)
      case Some(step) => WorkItemProjectsLoop(cfg, orgUrl, email, projects, i + 1, Acc(acc.items + step.value, step.log, false))
  }

  /** `_get_work_items_for_organization`: the tasks appended; every failure is caught inside. */
  function WorkItemsForOrgRun(cfg: Config, log: seq<Request>, orgUrl: string, email: string): Run<seq<SuggestedTask>> {
    var f := Fetch(cfg, log, ListProjects(orgUrl));
    if f.value.None? then Run([], f.log)
    else
      match ListField(f.value.value, "value")
      case None => Run([], f.log)
      case Some(projects) =>
        var a := WorkItemProjectsLoop(cfg, orgUrl, email, projects, 0, Acc([], f.log, false));
        Run(a.items, a.log)
  }

  /**
   * One organisation of `get_suggested_tasks` on the default base: `None`
   * when it raises, else what it appends and the log after it.
   */
  function TaskOrgStep(cfg: Config, log: seq<Request>, email: string, org: Json): Option<Run<seq<SuggestedTask>>> {
    if !org.JObj? then None
    else
      var name := Lookup(org.fields, "accountName");
      if !Truthy(name) then Some(Run([], log))
      else
        match Show(name)
        case None => None
        case Some(orgName) => Some(WorkItemsForOrgRun(cfg, log, cfg.baseUrl + "/" + orgName, email))
  }

  /** The organisation loop of `get_suggested_tasks` on the default base. */
  function TaskOrgsLoop(cfg: Config, email: string, orgs: seq<Json>, i: nat, acc: Acc<SuggestedTask>): Acc<SuggestedTask>
    requires i <= |orgs|
    decreases |orgs| - i
  {
    if i == |orgs| then acc
    else
      match TaskOrgStep(cfg, acc.log, email, orgs[i])
      case None => acc.(raised := true)
      case Some(step) => TaskOrgsLoop(cfg, email, orgs, i + 1, Acc(acc.items + step.value, step.log, false))
  }

  /** `get_suggested_tasks`: never raises; no user or no email gives `[]`. */
  function SuggestedTasksRun(cfg: Config, log: seq<Request>): Run<seq<SuggestedTask>> {
    var u := UserRun(cfg, log);
    if u.value.Failure? || u.value.value.email == [] then Run([], u.log)
    else
      var email := u.value.value.email;
      if cfg.baseUrl != DefaultBase then WorkItemsForOrgRun(cfg, u.log, cfg.baseUrl, email)
      else AccountTasksRun(cfg, u.log, email)
  }

  /** The default-base half of `get_suggested_tasks`: every organisation of the account listing. */
  function AccountTasksRun(cfg: Config, log: seq<Request>, email: string): Run<seq<SuggestedTask>> {
    var f := Fetch(cfg, log, ListAccounts(cfg.baseUrl));
    if f.value.None? then Run([], f.log)
    else
      match ListField(f.value.value, "value")
      case None => Run([], f.log)
      case Some(orgs) =>
        var a := TaskOrgsLoop(cfg, email, orgs, 0, Acc([], f.log, false));
        Run(a.items, a.log)
  }

  // ---------------------------------------------------------------------
  // get_repository_details_from_repo_name / get_branches
  // ---------------------------------------------------------------------

  /** `get_repository_details_from_repo_name`. */
  function RepositoryDetailsRun(cfg: Config, log: seq<Request>, repository: string): Run<Result<Repository, ServiceError>> {
    match ParseRepoName(repository)
    case Failure(e) => Run(Failure(e), log)
    case Success((org, project, repo)) =>
      var f := Fetch(cfg, log, RepositoryByName(org, project, repo));
      if f.value.None? || !f.value.value.JObj? then
        Run(Failure(AuthenticationError("Cannot access repository " + repository)), f.log)
      else
        Run(Success(Repository(Native(GetOr(f.value.value.fields, "id", JStr([]))), repository, AzureDevOps, false)), f.log)
  }

  /** What one ref contributes to the branch list. */
  datatype RefStep = RefRaised | RefSkipped | RefKept(branch: Branch)

  /** One ref: its name without every "refs/heads/", dropped when that leaves nothing. */
  function BranchOf(ref: Json): RefStep {
    if !ref.JObj? then RefRaised
    else
      var name := GetOr(ref.fields, "name", JStr([]));
      if !name.JStr? then RefRaised
      else
        var branchName := RemoveAll(name.s, BranchPrefix);
        if branchName == [] then RefSkipped
        else
          var sha := GetOr(ref.fields, "objectId", JStr([]));
          if sha.JStr? then RefKept(Branch(branchName, sha.s, false)) else RefRaised
  }

  /** `Some(prefix + rest)` when the rest exists. */
  function Prepend<T>(prefix: seq<T>, rest: Option<seq<T>>): Option<seq<T>> {
    if rest.None? then None else Some(prefix + rest.value)
  }

  /** Prepending nothing changes nothing. */
  lemma PrependNothing<T>(rest: Option<seq<T>>)
    ensures Prepend([], rest) == rest
  {
    if rest.Some? {
      assert [] + rest.value == rest.value;
    }
  }

  /** Prepending twice is prepending the concatenation. */
  lemma PrependTwice<T>(a: seq<T>, b: seq<T>, rest: Option<seq<T>>)
    ensures Prepend(a, Prepend(b, rest)) == Prepend(a + b, rest)
  {
    if rest.Some? {
      assert a + (b + rest.value) == (a + b) + rest.value;
    }
  }

  /** The branches of `refs[i..]`, in order; `None` when some ref raises. */
  function BranchesFrom(refs: seq<Json>, i: nat): Option<seq<Branch>>
    requires i <= |refs|
    decreases |refs| - i
  {
    if i == |refs| then Some([])
    else
      match BranchOf(refs[i])
      case RefRaised => None
      case RefSkipped => BranchesFrom(refs, i + 1)
      case RefKept(b) => Prepend([b], BranchesFrom(refs, i + 1))
  }

  /** The request `get_branches` sends: the organisation appears only on the default base. */
  function RefsRequest(baseUrl: string, org: string, project: string, repo: string): Request {
    ListRefs(if baseUrl != DefaultBase then None else Some(org), project, repo)
  }

  /** `get_branches`: ValueError for a malformed name; `[]` on any other failure. */
  function BranchesRun(cfg: Config, log: seq<Request>, repository: string): Run<Result<seq<Branch>, ServiceError>> {
    match ParseRepoName(repository)
    case Failure(e) => Run(Failure(e), log)
    case Success((org, project, repo)) =>
      var f := Fetch(cfg, log, RefsRequest(cfg.baseUrl, org, project, repo));
      if f.value.None? then Run(Success([]), f.log)
      else
        match ListField(f.value.value, "value")
        case None => Run(Success([]), f.log)
        case Some(refs) =>
          var bs := BranchesFrom(refs, 0);
          Run(Success(if bs.Some? then bs.value else []), f.log)
  }
}
