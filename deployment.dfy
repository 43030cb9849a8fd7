/** The automatic deployment: create the GitHub repository, set up the local
    git repository, push, and switch on GitHub Pages. Every external call (a
    GitHub REST request or a `git` subprocess) is represented by its outcome,
    given up front, and every step reports the calls it made, in order. */
module Deployment {
  import opened Options

  /** A REST request: the status of its response, or an exception. */
  datatype Http = Status(code: int) | Raised

  /** A `git` subprocess: it exits with 0, it exits with another code (which
      `check=True` turns into `CalledProcessError`), or it cannot be started
      at all (an `OSError`, which no step catches as a process error). */
  datatype Command = Succeeded | ExitError | OsError

  /** The JSON body of a Pages response: with or without `html_url`, or not
      JSON at all (`.json()` raises). */
  datatype Body = HtmlUrl(url: string) | NoHtmlUrl | NotJson

  datatype PagesReply = PagesStatus(code: int, body: Body) | PagesRaised

  /** The external calls, in the order the deployment can make them. */
  datatype Call = GetRepo | PostRepo | GitInit | GitBranch | GitRemoteRemove | GitRemoteAdd
                | GitAdd | GitCommit | GitPush | GetPages | PostPages

  /** What each external call would do if it were made, and whether `.git`
      exists. */
  datatype Outcomes = Outcomes(
    repoCheck: Http,
    repoCreate: Http,
    gitDir: bool,
    init: Command,
    branch: Command,
    removeRemote: Command,
    addRemote: Command,
    add: Command,
    commit: Command,
    push: Command,
    pagesCheck: PagesReply,
    pagesCreate: PagesReply)

  // ---------------------------------------------------------------------------
  // create_repository
  // ---------------------------------------------------------------------------

  /** `create_repository`: an existing repository is fine; otherwise it is
      created, and only a 201 counts; an exception counts as failure. */
  method CreateRepository(o: Outcomes) returns (ok: bool, calls: seq<Call>)
    ensures ok <==> o.repoCheck == Status(200) || (o.repoCheck.Status? && o.repoCreate == Status(201))
    ensures calls == if o.repoCheck.Status? && o.repoCheck.code != 200 then [GetRepo, PostRepo] else [GetRepo]
  {
    calls := [GetRepo];
    if o.repoCheck.Raised? {
      return false, calls;
    }
    if o.repoCheck.code == 200 {
      return true, calls;
    }
    calls := calls + [PostRepo];
    ok := o.repoCreate == Status(201);
  }

  // ---------------------------------------------------------------------------
  // git subprocess steps
  // ---------------------------------------------------------------------------

  /** How a step treats the failure of one command: `check=True` (a
      non-zero exit becomes a process error and ends the step with False); a
      commit whose process error is caught and ignored; or a command run
      without `check` inside a bare `try`, whose failure is ignored entirely. */
  datatype Policy = Checked | IgnoreExit | IgnoreAll

  datatype Action = Action(call: Call, policy: Policy, outcome: Command)

  /** How a step ends: it returns a flag, or an exception escapes it. */
  datatype Step = Returned(ok: bool) | Threw

  /** Whether an action ends its step, and how. */
  function Stop(a: Action): (s: Option<Step>)
    ensures s == Some(Returned(false)) <==> a.policy == Checked && a.outcome == ExitError
    ensures s == Some(Threw) <==> a.policy != IgnoreAll && a.outcome == OsError
    ensures s.None? <==> a.outcome == Succeeded || a.policy == IgnoreAll || (a.policy == IgnoreExit && a.outcome == ExitError)
  {
    match (a.policy, a.outcome)
    case (_, Succeeded) => None
    case (IgnoreAll, _) => None
    case (Checked, ExitError) => Some(Returned(false))
    case (IgnoreExit, ExitError) => None
    case (_, OsError) => Some(Threw)
  }

  /** The result of the actions from the `i`-th on, and how many of all the
      actions have run by then. */
  function ScriptFrom(script: seq<Action>, i: nat): (r: (Step, nat))
    requires i <= |script|
    ensures i < r.1 <= |script| || (i == r.1 == |script|)
    ensures (r.1 == |script| && r.0 == Returned(true)) || (r.1 > 0 && Stop(script[r.1 - 1]) == Some(r.0))
    decreases |script| - i
  {
    if i == |script| then (Returned(true), i)
    else match Stop(script[i])
      case Some(s) => (s, i + 1)
      case None => ScriptFrom(script, i + 1)
  }

  function CallsOf(script: seq<Action>): (calls: seq<Call>)
    ensures |calls| == |script| && forall k :: 0 <= k < |script| ==> calls[k] == script[k].call
  {
    seq(|script|, k requires 0 <= k < |script| => script[k].call)
  }

  /** Runs the commands in order, stopping at the first that ends the step. */
  method RunScript(script: seq<Action>) returns (r: Step, calls: seq<Call>)
    ensures r == ScriptFrom(script, 0).0 && calls == CallsOf(script[..ScriptFrom(script, 0).1])
  {
    var i := 0;
    calls := [];
    while i < |script|
      invariant 0 <= i <= |script|
      invariant ScriptFrom(script, i) == ScriptFrom(script, 0)
      invariant calls == CallsOf(script[..i])
    {
      calls := calls + [script[i].call];
      assert CallsOf(script[..i + 1]) == CallsOf(script[..i]) + [script[i].call];
      var stop := Stop(script[i]);
      if stop.Some? {
        return stop.value, calls;
      }
      i := i + 1;
    }
    r := Returned(true);
  }

  /** The step ends with True exactly when no action stops it, and it stops
      at the first action that does, running none after it. */
  lemma {:induction false} ScriptStops(script: seq<Action>, i: nat)
    requires i <= |script|
    ensures ScriptFrom(script, i).0 == Returned(true) <==> forall k :: i <= k < |script| ==> Stop(script[k]) == None
    ensures forall k :: i <= k < ScriptFrom(script, i).1 - 1 ==> Stop(script[k]) == None
    decreases |script| - i
  {
    if i < |script| && Stop(script[i]) == None {
      ScriptStops(script, i + 1);
    }
  }

  /** `setup_local_git`: `git init` only without `.git`, then the branch, the
      removal of an old remote (whatever it does) and the new remote. */
  function SetupScript(o: Outcomes): seq<Action> {
    (if o.gitDir then [] else [Action(GitInit, Checked, o.init)])
    + [Action(GitBranch, Checked, o.branch), Action(GitRemoteRemove, IgnoreAll, o.removeRemote),
       Action(GitRemoteAdd, Checked, o.addRemote)]
  }

  /** `push_to_github`: add, commit (a failed commit means nothing to commit
      and is ignored) and push. */
  function PushScript(o: Outcomes): seq<Action> {
    [Action(GitAdd, Checked, o.add), Action(GitCommit, IgnoreExit, o.commit), Action(GitPush, Checked, o.push)]
  }

  method SetupLocalGit(o: Outcomes) returns (r: Step, calls: seq<Call>)
    ensures r == ScriptFrom(SetupScript(o), 0).0 && calls == CallsOf(SetupScript(o)[..ScriptFrom(SetupScript(o), 0).1])
  {
    r, calls := RunScript(SetupScript(o));
  }

  method PushToGitHub(o: Outcomes) returns (r: Step, calls: seq<Call>)
    ensures r == ScriptFrom(PushScript(o), 0).0 && calls == CallsOf(PushScript(o)[..ScriptFrom(PushScript(o), 0).1])
  {
    r, calls := RunScript(PushScript(o));
  }

  /** Scripts whose actions stop in the same way at every position end the
      same way after the same number of commands. */
  lemma {:induction false} ScriptsAgree(s: seq<Action>, t: seq<Action>, i: nat)
    requires |s| == |t| && i <= |s|
    requires forall k :: i <= k < |s| ==> Stop(s[k]) == Stop(t[k])
    ensures ScriptFrom(s, i) == ScriptFrom(t, i)
    decreases |s| - i
  {
    if i < |s| {
      ScriptsAgree(s, t, i + 1);
    }
  }

  /** The setup succeeds exactly when init (if it runs), branch and adding
      the remote succeed; removing the old remote never matters; `git init`
      is attempted only without `.git`. */
  lemma SetupOutcome(o: Outcomes)
    ensures ScriptFrom(SetupScript(o), 0).0 == Returned(true) <==>
              (o.gitDir || o.init == Succeeded) && o.branch == Succeeded && o.addRemote == Succeeded
    ensures forall other: Command ::
              ScriptFrom(SetupScript(o), 0) == ScriptFrom(SetupScript(o.(removeRemote := other)), 0)
    ensures GitInit in CallsOf(SetupScript(o)[..ScriptFrom(SetupScript(o), 0).1]) <==> !o.gitDir
  {
    var s := SetupScript(o);
    var d := if o.gitDir then 0 else 1;
    assert |s| == d + 3 && s[d].policy == Checked && s[d].outcome == o.branch;
    assert s[d + 1].policy == IgnoreAll && s[d + 2].policy == Checked && s[d + 2].outcome == o.addRemote;
    assert !o.gitDir ==> s[0] == Action(GitInit, Checked, o.init);
    ScriptStops(s, 0);
    forall other: Command
      ensures ScriptFrom(s, 0) == ScriptFrom(SetupScript(o.(removeRemote := other)), 0)
    {
      var t := SetupScript(o.(removeRemote := other));
      assert forall k :: 0 <= k < |s| && k != d + 1 ==> s[k] == t[k];
      assert Stop(s[d + 1]) == Stop(t[d + 1]) == None;
      ScriptsAgree(s, t, 0);
    }
    var n := ScriptFrom(s, 0).1;
    var calls := CallsOf(s[..n]);
    if !o.gitDir {
      assert calls[0] == GitInit;
    } else {
      forall k | 0 <= k < |calls| ensures calls[k] != GitInit {
        assert calls[k] == s[k].call;
      }
    }
  }

  /** The push succeeds exactly when add and push succeed and the commit at
      least starts; a commit that fails with a process error ("nothing to
      commit") changes nothing. */
  lemma PushOutcome(o: Outcomes)
    ensures ScriptFrom(PushScript(o), 0).0 == Returned(true) <==>
              o.add == Succeeded && o.commit != OsError && o.push == Succeeded
    ensures o.commit == ExitError ==> ScriptFrom(PushScript(o), 0) == ScriptFrom(PushScript(o.(commit := Succeeded)), 0)
  {
    var s := PushScript(o);
    assert |s| == 3 && s[0] == Action(GitAdd, Checked, o.add) && s[1] == Action(GitCommit, IgnoreExit, o.commit);
    assert s[2] == Action(GitPush, Checked, o.push);
    ScriptStops(s, 0);
    if o.commit == ExitError {
      var t := PushScript(o.(commit := Succeeded));
      assert Stop(s[1]) == Stop(t[1]) == None;
      assert s[0] == t[0] && s[2] == t[2];
      ScriptsAgree(s, t, 0);
    }
  }

  // ---------------------------------------------------------------------------
  // enable_github_pages
  // ---------------------------------------------------------------------------

  /** The address of a project site on GitHub Pages. */
  function PagesAddress(username: string, repoName: string): string {
    "https://" + username + ".github.io/" + repoName + "/"
  }

  /** The URL of a Pages reply: `html_url`, or the project address without
      one; `None` when the body is not JSON. */
  function UrlOf(body: Body, fallback: string): Option<string> {
    match body
    case HtmlUrl(u) => Some(u)
    case NoHtmlUrl => Some(fallback)
    case NotJson => None
  }

  /** `enable_github_pages`: a site that is already on, or one the POST
      switches on (200 or 201), gives True and its URL; anything else,
      exceptions included, gives False and the project address. */
  function Pages(username: string, repoName: string, o: Outcomes): (r: (bool, string))
    ensures !r.0 ==> r.1 == PagesAddress(username, repoName)
    ensures var on := o.pagesCheck.PagesStatus? && o.pagesCheck.code == 200;
            var reply := if on then o.pagesCheck else o.pagesCreate;
            && (r.0 <==> o.pagesCheck.PagesStatus? && reply.PagesStatus? && reply.code in {200, 201} && !reply.body.NotJson?)
            && (r.0 && reply.body.HtmlUrl? ==> r.1 == reply.body.url)
            && (r.0 && reply.body.NoHtmlUrl? ==> r.1 == PagesAddress(username, repoName))
  {
    var fallback := PagesAddress(username, repoName);
    var reply := if o.pagesCheck.PagesStatus? && o.pagesCheck.code == 200 then o.pagesCheck else o.pagesCreate;
    if o.pagesCheck.PagesRaised? || reply.PagesRaised? || reply.code !in {200, 201} then (false, fallback)
    else match UrlOf(reply.body, fallback)
      case Some(u) => (true, u)
      case None => (false, fallback)
  }

  method EnablePages(username: string, repoName: string, o: Outcomes) returns (ok: bool, url: string, calls: seq<Call>)
    ensures (ok, url) == Pages(username, repoName, o)
    ensures calls == if o.pagesCheck.PagesStatus? && o.pagesCheck.code != 200 then [GetPages, PostPages] else [GetPages]
  {
    var fallback := PagesAddress(username, repoName);
    calls := [GetPages];
    if o.pagesCheck.PagesRaised? {
      return false, fallback, calls;
    }
    if o.pagesCheck.code == 200 {
      var found := UrlOf(o.pagesCheck.body, fallback);
      if found.None? {
        return false, fallback, calls;
      }
      return true, found.value, calls;
    }
    calls := calls + [PostPages];
    if o.pagesCreate.PagesRaised? || o.pagesCreate.code !in {200, 201} {
      return false, fallback, calls;
    }
    var created := UrlOf(o.pagesCreate.body, fallback);
    if created.None? {
      return false, fallback, calls;
    }
    ok, url := true, created.value;
  }

  // ---------------------------------------------------------------------------
  // full_deployment
  // ---------------------------------------------------------------------------

  /** The four steps, in order. */
  datatype Phase = Creating | SettingUp | Pushing | Publishing

  /** `full_deployment`: each of the first three steps must succeed (a step
      that throws counts as a failure), and the result is then True with the
      Pages URL whether or not switching Pages on worked. */
  method FullDeployment(username: string, repoName: string, o: Outcomes)
    returns (ok: bool, url: string, phases: seq<Phase>, calls: seq<Call>)
    ensures phases <= [Creating, SettingUp, Pushing, Publishing] && phases != []
    ensures var created := o.repoCheck == Status(200) || (o.repoCheck.Status? && o.repoCreate == Status(201));
            var setUp := ScriptFrom(SetupScript(o), 0).0 == Returned(true);
            var pushed := ScriptFrom(PushScript(o), 0).0 == Returned(true);
            && (ok <==> created && setUp && pushed)
            && (!ok ==> url == "")
            && (ok ==> url == Pages(username, repoName, o).1)
            && |phases| == (if !created then 1 else if !setUp then 2 else if !pushed then 3 else 4)
    ensures (forall c :: c in calls ==> c in {GetRepo, PostRepo}) <==> phases == [Creating]
  {
    phases := [Creating];
    var created;
    created, calls := CreateRepository(o);
    if !created {
      return false, "", phases, calls;
    }
    phases := phases + [SettingUp];
    var setUp, setupCalls := SetupLocalGit(o);
    assert |setupCalls| > 0 && setupCalls[0] in {GitInit, GitBranch} by {
      assert |SetupScript(o)| > 0 && ScriptFrom(SetupScript(o), 0).1 > 0;
    }
    calls := calls + setupCalls;
    ghost var git := setupCalls[0];
    assert git in calls;
    if setUp != Returned(true) {
      return false, "", phases, calls;
    }
    phases := phases + [Pushing];
    var pushed, pushCalls := PushToGitHub(o);
    calls := calls + pushCalls;
    assert git in calls;
    if pushed != Returned(true) {
      return false, "", phases, calls;
    }
    phases := phases + [Publishing];
    var pagesOk, pagesCalls;
    pagesOk, url, pagesCalls := EnablePages(username, repoName, o);
    calls := calls + pagesCalls;
    assert git in calls;
    ok := true;
  }
}
