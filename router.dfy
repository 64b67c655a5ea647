/** The front end's route table and navigation guard (src/router/index.ts). The guard
    reads a stored state (`imageProcessState` in local storage) and sends navigations
    that need an uploaded file home and navigations that need a result to the process
    page. */
module AppRouter {
  import opened Wrappers

  datatype Meta = Meta(requiresFile: bool, requiresProcess: bool)

  datatype RouteRecord = RouteRecord(path: string, name: string, meta: Meta)

  const NoMeta: Meta := Meta(false, false)

  /** The named routes, in declaration order; every other path redirects to "/". */
  const Routes: seq<RouteRecord> := [
    RouteRecord("/", "home", NoMeta),
    RouteRecord("/process", "process", Meta(true, false)),
    RouteRecord("/result", "result", Meta(false, true))
  ]

  const CatchAllRedirect := "/"

  /** The stored state's two fields the guard reads (None when absent). */
  datatype StoredState = StoredState(uploadedFileUrl: Option<string>, processedImageUrl: Option<string>)

  /** What the guard passes to `next`: proceed, or go to the named route. */
  datatype Verdict = Proceed | RedirectTo(name: string)

  predicate Truthy(s: Option<string>) {
    s.Some? && s.value != ""
  }

  /** The state the guard works on: a missing (or empty) stored item reads as `{}`. */
  function StateOrEmpty(stored: Option<StoredState>): StoredState {
    stored.GetOr(StoredState(None, None))
  }

  /** The beforeEach guard. */
  function Guard(meta: Meta, stored: Option<StoredState>): Verdict {
    var state := StateOrEmpty(stored);
    if meta.requiresFile && !Truthy(state.uploadedFileUrl) then RedirectTo("home")
    else if meta.requiresProcess && !Truthy(state.processedImageUrl) then RedirectTo("process")
    else Proceed
  }

  /** How a navigation names its target: by path, or by route name (`next({ name })`). */
  datatype RouteKey = ByPath(path: string) | ByName(name: string) {
    predicate Matches(r: RouteRecord) {
      match this
      case ByPath(p) => r.path == p
      case ByName(n) => r.name == n
    }
  }

  /** The first route the key matches, if any. */
  function Lookup(routes: seq<RouteRecord>, key: RouteKey): (r: Option<RouteRecord>)
    ensures r.Some? ==> r.value in routes && key.Matches(r.value)
    ensures r.None? ==> forall i :: 0 <= i < |routes| ==> !key.Matches(routes[i])
  {
    if routes == [] then None
    else if key.Matches(routes[0]) then Some(routes[0])
    else Lookup(routes[1..], key)
  }

  /** The route a path resolves to, the catch-all's redirect to "/" followed. */
  function Resolve(path: string): (r: RouteRecord)
    ensures r in Routes
  {
    match Lookup(Routes, ByPath(path))
    case Some(r) => r
    case None => Lookup(Routes, ByPath(CatchAllRedirect)).GetOr(Routes[0])
  }

  /** A navigation: resolve the path, run the guard, and run it again on each route it
      redirects to, at most `hops` times; None when a redirect names no route. */
  function Settle(r: RouteRecord, stored: Option<StoredState>, hops: nat): Option<RouteRecord>
    decreases hops
  {
    match Guard(r.meta, stored)
    case Proceed => Some(r)
    case RedirectTo(name) =>
      if hops == 0 then None
      else match Lookup(Routes, ByName(name))
        case None => None
        case Some(target) => Settle(target, stored, hops - 1)
  }

  function Navigate(path: string, stored: Option<StoredState>): Option<RouteRecord> {
    Settle(Resolve(path), stored, |Routes|)
  }

  // ---------------------------------------------------------------------------
  // Properties
  // ---------------------------------------------------------------------------

  /** The guard's three outcomes, each in both directions: home when a file is required
      and none is stored, before anything else; process when a result is required and
      none is stored; proceed otherwise. */
  lemma GuardOutcomes(meta: Meta, stored: Option<StoredState>)
    ensures var s := StateOrEmpty(stored);
      (Guard(meta, stored) == RedirectTo("home") <==> meta.requiresFile && !Truthy(s.uploadedFileUrl)) &&
      (Guard(meta, stored) == RedirectTo("process") <==>
         !(meta.requiresFile && !Truthy(s.uploadedFileUrl)) && meta.requiresProcess && !Truthy(s.processedImageUrl)) &&
      (Guard(meta, stored) == Proceed <==>
         (!meta.requiresFile || Truthy(s.uploadedFileUrl)) && (!meta.requiresProcess || Truthy(s.processedImageUrl)))
  {
  }

  /** The file check takes precedence: a route requiring both, with neither stored,
      goes home. */
  lemma FileCheckFirst(stored: Option<StoredState>)
    requires !Truthy(StateOrEmpty(stored).uploadedFileUrl) && !Truthy(StateOrEmpty(stored).processedImageUrl)
    ensures Guard(Meta(true, true), stored) == RedirectTo("home")
  {
  }

  /** An absent stored state reads as `{}`: every guarded route redirects and the guard
      decides as for a state with both fields absent. */
  lemma AbsentStateRedirects(meta: Meta)
    ensures Guard(meta, None) == Guard(meta, Some(StoredState(None, None)))
    ensures Guard(meta, None) == Proceed <==> !meta.requiresFile && !meta.requiresProcess
  {
  }

  /** Only "/process" requires a file and only "/result" requires a result; names and
      paths are unique. */
  lemma RouteTableMeta()
    ensures forall r :: r in Routes ==> (r.meta.requiresFile <==> r.path == "/process")
    ensures forall r :: r in Routes ==> (r.meta.requiresProcess <==> r.path == "/result")
    ensures forall i, j :: 0 <= i < j < |Routes| ==> Routes[i].path != Routes[j].path && Routes[i].name != Routes[j].name
  {
  }

  /** A path that names no route resolves to "/" (home). */
  lemma UnmatchedPathGoesHome(path: string)
    requires path !in {"/", "/process", "/result"}
    ensures Resolve(path) == RouteRecord("/", "home", NoMeta)
  {
    assert forall i :: 0 <= i < |Routes| ==> Routes[i].path in {"/", "/process", "/result"};
    assert Lookup(Routes, ByPath(CatchAllRedirect)) == Some(Routes[0]);
  }

  lemma SettleHome(stored: Option<StoredState>, hops: nat)
    ensures Settle(Routes[0], stored, hops) == Some(Routes[0])
  {
  }

  lemma SettleProcess(stored: Option<StoredState>, hops: nat)
    requires hops >= 1
    ensures Settle(Routes[1], stored, hops) ==
              if Truthy(StateOrEmpty(stored).uploadedFileUrl) then Some(Routes[1]) else Some(Routes[0])
  {
    assert Lookup(Routes, ByName("home")) == Some(Routes[0]);
    SettleHome(stored, hops - 1);
  }

  lemma SettleResult(stored: Option<StoredState>, hops: nat)
    requires hops >= 2
    ensures var s := StateOrEmpty(stored);
      Settle(Routes[2], stored, hops) ==
        if Truthy(s.processedImageUrl) then Some(Routes[2])
        else if Truthy(s.uploadedFileUrl) then Some(Routes[1])
        else Some(Routes[0])
  {
    assert Lookup(Routes, ByName("process")) == Some(Routes[1]);
    SettleProcess(stored, hops - 1);
  }

  /** Every navigation settles on a route whose guard lets it through: the redirect
      chain result -> process -> home always ends within the table. */
  lemma NavigationSettles(path: string, stored: Option<StoredState>)
    ensures Navigate(path, stored).Some?
    ensures Navigate(path, stored).value in Routes
    ensures Guard(Navigate(path, stored).value.meta, stored) == Proceed
  {
    var r := Resolve(path);
    assert r == Routes[0] || r == Routes[1] || r == Routes[2];
    SettleHome(stored, |Routes|);
    SettleProcess(stored, |Routes|);
    SettleResult(stored, |Routes|);
  }

  /** Where a navigation to "/result" lands: the result page when a result is stored;
      otherwise the process page when a file is stored; otherwise home. */
  lemma ResultLanding(stored: Option<StoredState>)
    ensures var s := StateOrEmpty(stored);
      Navigate("/result", stored) ==
        if Truthy(s.processedImageUrl) then Some(Routes[2])
        else if Truthy(s.uploadedFileUrl) then Some(Routes[1])
        else Some(Routes[0])
  {
    assert Lookup(Routes, ByPath("/result")) == Some(Routes[2]);
    SettleResult(stored, |Routes|);
  }
}
