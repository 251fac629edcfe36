/** The fixed `gh` commands of the broker and the texts of targets: a pull request as `owner/name#number`. */
module BrokerCommand {
  import opened Basics

  predicate IsDigit(c: char) {
    '0' <= c <= '9'
  }

  predicate IsNumber(s: string) {
    1 <= |s| <= 9 && s[0] != '0' && forall i :: 0 <= i < |s| ==> IsDigit(s[i])
  }

  predicate NameChar(c: char) {
    'a' <= c <= 'z' || IsDigit(c) || c in "_.-"
  }

  predicate IsName(s: string) {
    1 <= |s| <= 100 && s[0] !in ".-" && forall i :: 0 <= i < |s| ==> NameChar(s[i])
  }

  function IndexOf(s: string, c: char): (i: nat)
    ensures i <= |s| && (i < |s| ==> s[i] == c) && forall j :: 0 <= j < i ==> s[j] != c
  {
    if s == [] || s[0] == c then 0 else 1 + IndexOf(s[1..], c)
  }

  predicate IsRepo(s: string) {
    var slash := IndexOf(s, '/');
    slash < |s| && IsName(s[..slash]) && IsName(s[slash + 1..])
  }

  datatype PullRequest = PullRequest(repo: string, number: string)

  /** A canonical target names a pull request as `owner/name#number`. */
  function ParseTarget(target: string): (r: Option<PullRequest>)
    ensures r.Some? ==> IsRepo(r.value.repo) && IsNumber(r.value.number) && target == r.value.repo + "#" + r.value.number
  {
    var hash := IndexOf(target, '#');
    if hash < |target| && IsRepo(target[..hash]) && IsNumber(target[hash + 1..]) then
      assert target == target[..hash] + "#" + target[hash + 1..];
      Some(PullRequest(target[..hash], target[hash + 1..]))
    else None
  }

  /** What a canonical target names. */
  datatype Target = PullRequestTarget(pr: PullRequest) | OtherTarget(text: string)

  datatype Verb = Merging | OtherVerb(name: string)

  function MergeArgs(pr: PullRequest, sha: string): seq<string> {
    ["pr", "merge", pr.number, "--repo=" + pr.repo, "--squash", "--match-head-commit=" + sha]
  }

  lemma NoHash(s: string)
    requires IsRepo(s)
    ensures '#' !in s
  {
    var slash := IndexOf(s, '/');
    var (owner, name) := (s[..slash], s[slash + 1..]);
    assert forall i :: 0 <= i < |owner| ==> owner[i] != '#' && s[i] == owner[i];
    assert forall i :: 0 <= i < |name| ==> name[i] != '#' && s[slash + 1 + i] == name[i];
    assert s == owner + ['/'] + name;
  }

  /** Every repository and number can be named, and a target names one pull request. */
  lemma TargetRoundTrip(pr: PullRequest)
    requires IsRepo(pr.repo) && IsNumber(pr.number)
    ensures ParseTarget(pr.repo + "#" + pr.number) == Some(pr)
  {
    var target := pr.repo + "#" + pr.number;
    var hash := IndexOf(target, '#');
    NoHash(pr.repo);
    assert target[|pr.repo|] == '#';
    assert forall i :: 0 <= i < |pr.repo| ==> target[i] == pr.repo[i] && pr.repo[i] in pr.repo;
    assert hash == |pr.repo|;
    assert target[..hash] == pr.repo && target[hash + 1..] == pr.number;
  }

  /** The command is fixed by the approved target and head: two commands that are the same merge the same
      head of the same pull request. */
  lemma CommandIsForItsTarget(pr: PullRequest, sha: string, pr2: PullRequest, sha2: string)
    requires MergeArgs(pr, sha) == MergeArgs(pr2, sha2)
    ensures pr == pr2 && sha == sha2
  {
    var (a, b) := (MergeArgs(pr, sha), MergeArgs(pr2, sha2));
    assert a[2] == b[2] && a[3] == b[3] && a[5] == b[5];
    assert pr.repo == ("--repo=" + pr.repo)[7..] && pr2.repo == ("--repo=" + pr2.repo)[7..];
    assert sha == ("--match-head-commit=" + sha)[20..] && sha2 == ("--match-head-commit=" + sha2)[20..];
  }
}
