/**
 * The `organization/project/repository` names that cross the adapter's
 * boundary: how they are built and how an incoming one is checked.
 */
module RepoNames {
  import opened Wrappers
  import opened Strings
  import opened Types

  /** `f'{org}/{project}/{repo}'`. */
  function FullName(org: string, project: string, repo: string): string {
    org + "/" + project + "/" + repo
  }

  /** Joining three parts with '/' is their full name. */
  lemma JoinThree(parts: seq<string>)
    requires |parts| == 3
    ensures Join(parts, '/') == FullName(parts[0], parts[1], parts[2])
  {
    assert parts[1..][1..] == [parts[2]];
    assert Join(parts[1..], '/') == parts[1] + ['/'] + parts[2];
  }

  /**
   * `repository.split('/')` unpacked into three parts; any other number of
   * parts is the ValueError both single-repository operations raise.
   */
  function ParseRepoName(repository: string): (r: Result<(string, string, string), ServiceError>)
    ensures r.Success? <==> |Split(repository, '/')| == 3
    ensures r.Failure? ==> r.error == ValueError(RepoFormatMessage)
    ensures r.Success? ==> FullName(r.value.0, r.value.1, r.value.2) == repository
    ensures r.Success? ==> '/' !in r.value.0 && '/' !in r.value.1 && '/' !in r.value.2
  {
    var parts := Split(repository, '/');
    if |parts| != 3 then Failure(ValueError(RepoFormatMessage))
    else
      JoinSplit(repository, '/');
      JoinThree(parts);
      Success((parts[0], parts[1], parts[2]))
  }

  /** A name built from three slash-free parts parses back into exactly those parts. */
  lemma FullNameRoundTrip(org: string, project: string, repo: string)
    requires '/' !in org && '/' !in project && '/' !in repo
    ensures ParseRepoName(FullName(org, project, repo)) == Success((org, project, repo))
  {
    var parts := [org, project, repo];
    SplitJoin(parts, '/');
    JoinThree(parts);
  }

  /** A name parses exactly when it is some `FullName` of three slash-free parts. */
  lemma ParseAcceptsExactlyFullNames(repository: string)
    ensures ParseRepoName(repository).Success? <==>
            exists o: string, p: string, q: string ::
              '/' !in o && '/' !in p && '/' !in q && repository == FullName(o, p, q)
  {
    var r := ParseRepoName(repository);
    if r.Success? {
      var (o, p, q) := r.value;
      assert repository == FullName(o, p, q);
    } else if exists o: string, p: string, q: string ::
                '/' !in o && '/' !in p && '/' !in q && repository == FullName(o, p, q) {
      var o: string, p: string, q: string :|
        '/' !in o && '/' !in p && '/' !in q && repository == FullName(o, p, q);
      FullNameRoundTrip(o, p, q);
      assert false;
    }
  }
}
