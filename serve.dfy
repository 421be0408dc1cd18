/**
 * The HTTP front end (serve.go): a request path names a project, a
 * reference, an action and the rest of the route. `ServeHTTP` and
 * `HandleWebhook` are straight chains of guards around four calls
 * (`CI.Project`, `Project.Ref`, `Project.GetBuild`, `Build.StartBuild`);
 * they are modelled as decisions over the answers of those calls, which are
 * modelled on their own in `Projects` and here in `CI`.
 */
module Serve {
  import opened Wrappers
  import opened Strs
  import opened Exec
  import opened FileSys
  import opened Projects

  // ---------------------------------------------------------------------
  // Routes

  /** `strings.TrimPrefix(route, "/")`. */
  function TrimSlash(route: string): string {
    if |route| > 0 && route[0] == '/' then route[1..] else route
  }

  /**
   * `splitFirst`: after one leading slash is dropped, the text before the
   * next slash and the text after it; with no slash left, all of it and "".
   */
  function SplitFirst(route: string): (r: (string, string))
    ensures var t := TrimSlash(route);
      && ('/' !in t ==> r == (t, ""))
      && ('/' in t ==> '/' !in r.0 && r.0 + "/" + r.1 == t)
  {
    var t := TrimSlash(route);
    var i := Index(t, '/');
    if i < 0 then (t, "")
    else
      assert t[..i] + "/" + t[i + 1..] == t by {
        assert t == t[..i] + [t[i]] + t[i + 1..];
      }
      (t[..i], t[i + 1..])
  }

  /** Only one leading slash is dropped: a second one gives an empty first segment. */
  lemma {:induction false} SplitFirstDoubleSlash(s: string)
    ensures SplitFirst("//" + s) == ("", s)
  {
    var t := TrimSlash("//" + s);
    assert t == "/" + s;
    assert Index(t, '/') == 0;
    assert t[1..] == s;
  }

  /** The first slash of a segment without one, a slash, and a rest is the one after the segment. */
  lemma {:induction false} IndexAfterSegment(first: string, rest: string)
    requires '/' !in first
    ensures Index(first + "/" + rest, '/') == |first|
  {
    var u := first + "/" + rest;
    var i := Index(u, '/');
    assert u[|first|] == '/';
    assert i <= |first|;
    assert i >= |first|;
  }

  /**
   * A segment without a slash, a slash and the rest of a route split back
   * into the segment and the rest; without the leading slash too, unless
   * the segment is empty (then the slash after it is the one dropped).
   */
  lemma {:induction false} SplitFirstJoin(first: string, rest: string)
    requires '/' !in first
    ensures SplitFirst("/" + first + "/" + rest) == (first, rest)
    ensures first != "" ==> SplitFirst(first + "/" + rest) == (first, rest)
  {
    var u := first + "/" + rest;
    assert ("/" + first + "/" + rest)[1..] == u;
    assert TrimSlash("/" + first + "/" + rest) == u;
    if first != "" {
      assert u[0] == first[0];
      assert first[0] in first;
      assert TrimSlash(u) == u;
    }
    IndexAfterSegment(first, rest);
    assert u[..|first|] == first;
    assert u[|first| + 1..] == rest;
  }

  /** The four segments `ServeHTTP` takes from a request path. */
  datatype Route = Route(project: string, ref: string, action: string, rest: string)

  function ParseRoute(path: string): (r: Route)
    ensures '/' !in r.project && '/' !in r.ref && '/' !in r.action
  {
    var a := SplitFirst(path);
    var b := SplitFirst(a.1);
    var c := SplitFirst(b.1);
    Route(a.0, b.0, c.0, c.1)
  }

  /**
   * A path written as `/project/ref/action/rest` parses back into its
   * segments when the reference and the action are not empty (an empty one
   * lets the next segment move up, as only one leading slash is dropped).
   */
  lemma {:induction false} ParseRouteJoin(project: string, ref: string, action: string, rest: string)
    requires '/' !in project && '/' !in ref && '/' !in action
    requires ref != "" && action != ""
    ensures ParseRoute("/" + project + "/" + ref + "/" + action + "/" + rest) == Route(project, ref, action, rest)
  {
    var inner := action + "/" + rest;
    var tail := ref + "/" + inner;
    var path := "/" + project + "/" + tail;
    assert "/" + project + "/" + ref + "/" + action + "/" + rest == path;
    SplitFirstJoin(project, tail);
    var a := SplitFirst(path);
    assert a == (project, tail);
    SplitFirstJoin(ref, inner);
    var b := SplitFirst(a.1);
    assert b == (ref, inner);
    SplitFirstJoin(action, rest);
    var c := SplitFirst(b.1);
    assert c == (action, rest);
  }

  /** The elements of a path that `path.Join` keeps: the non-empty ones. */
  function NonEmpty(elems: seq<string>): (r: seq<string>)
    ensures forall i :: 0 <= i < |r| ==> r[i] != ""
    decreases |elems|
  {
    if elems == [] then []
    else if elems[0] == "" then NonEmpty(elems[1..])
    else [elems[0]] + NonEmpty(elems[1..])
  }

  /** `path.Join("/", elems...)` for elements that need no cleaning. */
  function PathJoin(elems: seq<string>): string {
    "/" + Join(NonEmpty(elems), '/')
  }

  /** The redirect for a bare project name. */
  lemma {:induction false} HomeLocation(project: string)
    requires project != ""
    ensures PathJoin([project, "master"]) == "/" + project + "/master"
  {
    assert [project, "master"][1..] == ["master"];
    assert ["master"][1..] == [];
    assert NonEmpty([project, "master"]) == [project, "master"];
    JoinCons(project, ["master"], '/');
  }

  // ---------------------------------------------------------------------
  // The guard chains

  /** What a request is answered with. */
  datatype Response =
    | NotFound
    | Redirect(code: int, location: string)
    | StatusJson(summary: BuildSummary)
    | FileNames(dir: string)
    | ServeFile(file: string)

  const StatusMovedPermanently := 301
  const StatusTemporaryRedirect := 307

  /** The calls a request makes into the rest of the service, in order. */
  datatype Call = OpenProject(name: string) | Webhook | ResolveRef(ref: string) | FetchBuild(ref: string) | Start(ref: string)

  /** What `Project.Ref` answered: the canonical id and whether the input already was a commit id, or an error. */
  datatype RefAnswer = Resolved(actualRef: string, hash: bool) | Unresolved

  /**
   * Where `ServeHTTP` leaves a request: answered with a response, or handed
   * to an action on the build of a canonical id.
   */
  datatype Verdict = Answer(response: Response) | Dispatch(ref: string, action: string, rest: string)

  /** The verdict and the calls made on the way to it. */
  datatype Handling = Handling(verdict: Verdict, calls: seq<Call>)

  /** The routing table of actions: the status page and the files listing. */
  predicate KnownAction(action: string) {
    action == "" || action == "files"
  }

  /** A project name that may be looked up: not empty, not hidden. */
  predicate ValidProjectName(name: string) {
    name != "" && name[0] != '.'
  }

  /**
   * `ServeHTTP` on a parsed route, given whether `CI.Project` opened the
   * project, the calls the webhook made (only for a bare project name), what
   * `Project.Ref` answered and whether `Project.GetBuild` succeeded; each
   * answer is consulted only once the chain reaches it.
   */
  function ServeHTTP(r: Route, post: bool, projectOk: bool, hook: seq<Call>, answer: RefAnswer, buildOk: bool): (h: Handling)
    ensures h.calls != [] ==> h.calls[0] == OpenProject(r.project)
    ensures h.verdict.Dispatch? ==>
      && KnownAction(h.verdict.action) && h.verdict.action == r.action && h.verdict.rest == r.rest
      && |h.calls| >= 2 && h.calls[|h.calls| - 1] == Start(h.verdict.ref)
  {
    if !KnownAction(r.action) || !ValidProjectName(r.project) then Handling(Answer(NotFound), [])
    else
      var open := [OpenProject(r.project)];
      if !projectOk then Handling(Answer(NotFound), open)
      else if r.ref == "" then
        Handling(Answer(Redirect(StatusMovedPermanently, PathJoin([r.project, "master"]))),
                 open + (if post then [Webhook] + hook else []))
      else if r.ref[0] == '-' then Handling(Answer(NotFound), open)
      else
        var resolve := open + [ResolveRef(r.ref)];
        match answer
        case Unresolved => Handling(Answer(NotFound), resolve)
        case Resolved(actual, hash) =>
          if hash && actual != r.ref then
            Handling(Answer(Redirect(StatusTemporaryRedirect, PathJoin([r.project, actual, r.action, r.rest]))), resolve)
          else if !buildOk then Handling(Answer(NotFound), resolve + [FetchBuild(actual)])
          else Handling(Dispatch(actual, r.action, r.rest), resolve + [FetchBuild(actual), Start(actual)])
  }

  /**
   * `HandleWebhook`, given the `after` field of the request body (None when
   * the media type is unreadable or not one it accepts), what `Project.Ref`
   * answered for it and whether `Project.GetBuild` succeeded: it returns the
   * calls it makes.
   */
  function HandleWebhook(after: Option<string>, answer: RefAnswer, buildOk: bool): (calls: seq<Call>)
    ensures |calls| <= 3
    ensures calls != [] ==> after.Some? && calls[0] == ResolveRef(after.value)
    ensures forall n :: 0 <= n < |calls| - 1 ==> !calls[n].Start?
  {
    match after
    case None => []
    case Some(ref) =>
      if ref == "" || ref[0] == '-' then []
      else
        match answer
        case Unresolved => [ResolveRef(ref)]
        case Resolved(actual, _) =>
          [ResolveRef(ref), FetchBuild(actual)] + (if buildOk then [Start(actual)] else [])
  }

  /** The `Status` action: the summary, for the route of the build itself only. */
  function StatusAction(summary: BuildSummary, route: string): (resp: Response)
    ensures resp == NotFound <==> route != ""
    ensures resp != NotFound ==> resp == StatusJson(summary)
  {
    if route != "" then NotFound else StatusJson(summary)
  }

  /** The `Files` action: nothing until the build has finished; then the listing, or one file below the files directory. */
  function FilesAction(status: BuildStatus, filesPath: string, route: string): (resp: Response)
    ensures resp == NotFound <==> status != Finished
    ensures status == Finished && route == "" ==> resp == FileNames(filesPath)
    ensures status == Finished && route != "" ==> resp == ServeFile(filesPath + "/" + route)
  {
    if status != Finished then NotFound
    else if route == "" then FileNames(filesPath)
    else ServeFile(filesPath + "/" + route)
  }

  // ---------------------------------------------------------------------
  // Properties of the guard chains

  /** An unknown action or an empty or hidden project name is not found, and nothing is opened. */
  lemma {:induction false} GuardsBeforeOpen(r: Route, post: bool, projectOk: bool, hook: seq<Call>, answer: RefAnswer, buildOk: bool)
    ensures var h := ServeHTTP(r, post, projectOk, hook, answer, buildOk);
      (!KnownAction(r.action) || !ValidProjectName(r.project)) <==> h.calls == []
    ensures var h := ServeHTTP(r, post, projectOk, hook, answer, buildOk);
      h.calls == [] ==> h.verdict == Answer(NotFound)
  {
  }

  /** A reference starting with `-` is not found, and neither `Ref` nor `GetBuild` is called. */
  lemma {:induction false} DashRefNotFound(r: Route, post: bool, projectOk: bool, hook: seq<Call>, answer: RefAnswer, buildOk: bool)
    requires r.ref != "" && r.ref[0] == '-'
    ensures var h := ServeHTTP(r, post, projectOk, hook, answer, buildOk);
      && h.verdict == Answer(NotFound)
      && |h.calls| <= 1
      && forall c :: c in h.calls ==> c.OpenProject?
  {
  }

  /**
   * A bare project name redirects permanently to its master branch, after
   * the webhook has run exactly when the request is a POST; no reference is
   * resolved by the handler itself.
   */
  lemma {:induction false} EmptyRefRedirects(r: Route, post: bool, hook: seq<Call>, answer: RefAnswer, buildOk: bool)
    requires KnownAction(r.action) && ValidProjectName(r.project) && r.ref == ""
    ensures var h := ServeHTTP(r, post, true, hook, answer, buildOk);
      && h.verdict == Answer(Redirect(StatusMovedPermanently, "/" + r.project + "/master"))
      && (Webhook in h.calls <==> post)
      && h.calls == [OpenProject(r.project)] + (if post then [Webhook] + hook else [])
  {
    HomeLocation(r.project);
  }

  /**
   * Once the project is open and the reference resolved, the handler
   * redirects to the canonical id exactly when the reference was a commit id
   * that is not already that id; otherwise it looks the build up.
   */
  lemma {:induction false} CanonicalRedirect(r: Route, post: bool, hook: seq<Call>, actual: string, hash: bool, buildOk: bool)
    requires KnownAction(r.action) && ValidProjectName(r.project) && r.ref != "" && r.ref[0] != '-'
    ensures var h := ServeHTTP(r, post, true, hook, Resolved(actual, hash), buildOk);
      && (h.verdict.Answer? && h.verdict.response.Redirect? <==> hash && actual != r.ref)
      && (hash && actual != r.ref ==>
            h.verdict.response == Redirect(StatusTemporaryRedirect, PathJoin([r.project, actual, r.action, r.rest]))
            && FetchBuild(actual) !in h.calls)
      && (!(hash && actual != r.ref) ==> FetchBuild(actual) in h.calls)
  {
    var h := ServeHTTP(r, post, true, hook, Resolved(actual, hash), buildOk);
    if hash && actual != r.ref {
      assert h.calls == [OpenProject(r.project), ResolveRef(r.ref)];
    }
  }

  /**
   * A request is handed to an action only with the build of the resolved
   * id, after it was looked up and started, as the last two calls.
   */
  lemma {:induction false} DispatchStarts(r: Route, post: bool, projectOk: bool, hook: seq<Call>, answer: RefAnswer, buildOk: bool)
    ensures var h := ServeHTTP(r, post, projectOk, hook, answer, buildOk);
      h.verdict.Dispatch? <==>
        && KnownAction(r.action) && ValidProjectName(r.project) && projectOk
        && r.ref != "" && r.ref[0] != '-' && answer.Resolved?
        && !(answer.hash && answer.actualRef != r.ref) && buildOk
    ensures var h := ServeHTTP(r, post, projectOk, hook, answer, buildOk);
      h.verdict.Dispatch? ==>
        && h.verdict == Dispatch(answer.actualRef, r.action, r.rest)
        && h.calls == [OpenProject(r.project), ResolveRef(r.ref), FetchBuild(answer.actualRef), Start(answer.actualRef)]
    ensures var h := ServeHTTP(r, post, projectOk, hook, answer, buildOk);
      !h.verdict.Dispatch? ==> forall c :: c in h.calls && c.Start? ==> post && c in hook
  {
  }

  /**
   * The webhook starts a build exactly when its reference is usable, it
   * resolved, and the build was found or made; it then starts the build of
   * the resolved id, whether or not the reference was a commit id.
   */
  lemma {:induction false} WebhookStarts(after: Option<string>, answer: RefAnswer, buildOk: bool)
    ensures var calls := HandleWebhook(after, answer, buildOk);
      (exists c :: c in calls && c.Start?) <==>
        after.Some? && after.value != "" && after.value[0] != '-' && answer.Resolved? && buildOk
    ensures var calls := HandleWebhook(after, answer, buildOk);
      after.Some? && after.value != "" && after.value[0] != '-' && answer.Resolved? && buildOk ==>
        calls == [ResolveRef(after.value), FetchBuild(answer.actualRef), Start(answer.actualRef)]
    ensures after.None? || after.value == "" || after.value[0] == '-' ==> HandleWebhook(after, answer, buildOk) == []
  {
    var calls := HandleWebhook(after, answer, buildOk);
    if after.Some? && after.value != "" && after.value[0] != '-' && answer.Resolved? && buildOk {
      assert calls[2] == Start(answer.actualRef);
    }
  }

  // ---------------------------------------------------------------------
  // The project cache

  /** `filepath.Join(ci.Path, name+".git")`. */
  function ProjectPath(root: string, name: string): string {
    root + "/" + name + ".git"
  }

  /** The service: the directory of clones and the projects opened so far, by name. */
  class CI {
    const root: string
    var projects: map<string, Project>

    /** Every cached project was opened under its own name, from its clone under the root, and keeps its own invariant. */
    ghost predicate Valid()
      reads this, projects.Values
    {
      forall n :: n in projects ==> projects[n].name == n && projects[n].path == ProjectPath(root, n) && projects[n].Valid()
    }

    /** `NewCI`. */
    constructor (root: string)
      ensures this.root == root && projects == map[]
      ensures Valid()
    {
      this.root := root;
      projects := map[];
    }

    /**
     * `CI.Project`: the cached project for a known name; otherwise the clone
     * `root/name.git` is opened, and cached only when that succeeds, so a
     * failed name is tried again on the next request.
     */
    method Project(name: string, fs: FileSystem, w: World) returns (p: Projects.Project?, err: Option<string>)
      requires Valid()
      modifies this
      ensures Valid()
      ensures p != null <==> err == None
      ensures name in old(projects) ==> p == old(projects)[name] && projects == old(projects)
      ensures name !in old(projects) ==>
        var path := ProjectPath(root, name);
        && (err == None <==> path in fs.paths && Output(w.git(RemoteCommand(path))).Ok?)
        && (err != None ==> projects == old(projects))
        && (err == None ==> fresh(p) && projects == old(projects)[name := p]
                            && p.name == name && p.path == path && p.builds == map[] && p.Valid())
    {
      if name in projects {
        return projects[name], None;
      }
      p, err := Projects.Project.Open(name, ProjectPath(root, name), fs, w);
      if err.Some? {
        return null, err;
      }
      projects := projects[name := p];
    }
  }
}
