/**
 * The provider-agnostic records the adapter produces, the errors it raises,
 * the requests it issues and the responses it receives, and the work-item
 * type mapper.
 */
module Types {
  import opened Wrappers
  import opened Strings
  import opened JsonModel

  /** The provider tag; the adapter only ever writes the Azure DevOps one. */
  datatype ProviderType = AzureDevOps

  /** The generic task categories a suggested task can carry. */
  datatype TaskType = OpenIssue | OpenPr | FailingChecks | MergeConflicts | UnresolvedComments

  /**
   * A repository identifier: the walks store a hash of the provider's
   * native id, the single-repository lookup stores the native id itself.
   */
  datatype RepoId = Hashed(n: int) | Native(id: Json)

  datatype Repository = Repository(id: RepoId, fullName: string, provider: ProviderType, isPublic: bool)

  datatype Branch = Branch(name: string, commitSha: string, protected: bool)

  datatype User = User(id: int, login: string, avatarUrl: string, name: string, email: string)

  datatype SuggestedTask = SuggestedTask(
    provider: ProviderType,
    taskType: TaskType,
    repo: string,
    issueNumber: int,
    title: string)

  /** The exceptions that leave the adapter's single-entity operations. */
  datatype ServiceError =
    | AuthenticationError(message: string)
    | ValueError(message: string)
    | IndexError

  const RepoFormatMessage: string := "Azure DevOps repository format should be: organization/project/repository"
  const NoTokenMessage: string := "No Azure DevOps token provided"
  const InvalidTokenMessage: string := "Invalid Azure DevOps token"

  /**
   * What a request asks for: the endpoint and the values the source puts
   * into its URL or body (the URL text itself is not modelled).
   */
  datatype Request =
    | ConnectionData(baseUrl: string)
    | Profile
    | ProbeProjects(baseUrl: string)
    | ProbeAccounts(baseUrl: string)
    | ListAccounts(baseUrl: string)
    | ListProjects(orgUrl: string)
    | ListRepositories(orgUrl: string, project: string)
    | RepositoryById(orgUrl: string, project: string, repoId: string)
    | RepositoryByName(org: string, project: string, repo: string)
    | ListRefs(orgSegment: Option<string>, project: string, repo: string)
    | Wiql(orgUrl: string, project: string, userEmail: string)
    | WorkItemDetails(orgUrl: string, project: string, ids: seq<Json>)

  /** What the transport gives back: a decoded body, or a raised error of any kind. */
  datatype Response = Reply(body: Json) | Fail

  /** The label groups the work-item type mapper tests, in its order. */
  datatype WorkItemKind = Defect | Story | WorkTask | OtherKind

  /** The group of a work-item type label, compared case-insensitively. */
  function WorkItemKindOf(workItemType: string): WorkItemKind {
    var l := Lower(workItemType);
    if l in ["bug", "defect"] then Defect
    else if l in ["user story", "story", "feature"] then Story
    else if l in ["task", "work item"] then WorkTask
    else OtherKind
  }

  /** The task category each group is mapped to. */
  function TaskTypeOfKind(kind: WorkItemKind): TaskType {
    match kind
    case Defect => OpenIssue
    case Story => OpenIssue
    case WorkTask => OpenIssue
    case OtherKind => OpenIssue
  }

  /** `_map_work_item_type_to_task_type`: every label, known or not, becomes OPEN_ISSUE. */
  function MapWorkItemTypeToTaskType(workItemType: string): (t: TaskType)
    ensures t == OpenIssue
  {
    TaskTypeOfKind(WorkItemKindOf(workItemType))
  }

  /** Lower-casing twice is lower-casing once. */
  lemma LowerIdempotent(s: string)
    ensures Lower(Lower(s)) == Lower(s)
  {
    assert forall k :: 0 <= k < |s| ==> LowerChar(LowerChar(s[k])) == LowerChar(s[k]);
  }

  /** The grouping ignores ASCII case: a label and its lower-case form fall in the same group. */
  lemma WorkItemKindIgnoresCase(workItemType: string)
    ensures WorkItemKindOf(Lower(workItemType)) == WorkItemKindOf(workItemType)
  {
    LowerIdempotent(workItemType);
  }

  /**
   * The mapper tells the groups apart and still gives them one category:
   * a bug, a user story, a task and an unknown label all become OPEN_ISSUE.
   */
  lemma DistinctKindsCollapse()
    ensures WorkItemKindOf("Bug") == Defect && WorkItemKindOf("User Story") == Story
    ensures WorkItemKindOf("Work Item") == WorkTask && WorkItemKindOf("Custom Type") == OtherKind
    ensures forall k: WorkItemKind :: TaskTypeOfKind(k) == OpenIssue
  {
    assert Lower("Bug") == "bug";
    assert Lower("User Story") == "user story";
    assert Lower("Work Item") == "work item";
    assert Lower("Custom Type") == "custom type";
  }
}
