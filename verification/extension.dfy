/** The contract between the editor and a deployment-targets extension: list the known
    targets, hand out per-target information, and launch a build on a target. The contract is
    stated over any implementation, given as its two target-taking operations and the ghost set
    of target ids it knows; a minimal reference extension shows the contract can be met. */
module DeploymentTargetsExtension {
  import opened Wrappers
  import opened DeploymentTargets
  import opened BuildChecks
  import opened DeploymentErrors

  /** The description of a build that the build pipeline supplies; the contract never looks
      inside it. */
  type BuildProperties(!new)

  /** What an extension reports about one target: the operations it supports, and the check
      of a build against it. How the check decides is up to the extension. */
  datatype TargetInfo = TargetInfo(
    supportFlags: set<SupportFlag>,
    checkBuild: BuildProperties -> BuildCheckResult)

  /** The failure every target-taking operation must produce for an unknown target. */
  predicate IsUnknownTargetFailure(e: DeploymentError)
  {
    WellFormed(e) && IsA(e, UnknownDeploymentTarget)
  }

  /** The documented contract of an extension that lists the targets `listed`: its known
      targets are exactly the ones it lists, and both fetching the info of, and launching a
      build on, a target it does not know fail with `UnknownDeploymentTarget`, the fetch then
      yielding no info. */
  ghost predicate RejectsUnknownTargets(
    known: set<DeploymentTargetId>,
    listed: seq<DeploymentTargetIdAndStatus>,
    getTargetInfo: DeploymentTargetId -> Result<TargetInfo, DeploymentError>,
    launchBuildOnTarget: (BuildProperties, DeploymentTargetId) -> Outcome<DeploymentError>)
    ensures RejectsUnknownTargets(known, listed, getTargetInfo, launchBuildOnTarget) ==>
      forall id :: (forall i :: 0 <= i < |listed| ==> listed[i].id != id) ==>
        getTargetInfo(id).Failure? && IsUnknownTargetFailure(getTargetInfo(id).error)
    ensures RejectsUnknownTargets(known, listed, getTargetInfo, launchBuildOnTarget) ==>
      forall props, id :: (forall i :: 0 <= i < |listed| ==> listed[i].id != id) ==>
        launchBuildOnTarget(props, id).Fail? && IsUnknownTargetFailure(launchBuildOnTarget(props, id).error)
  {
    && (forall id :: id in known <==> exists p :: p in listed && p.id == id)
    && (forall id :: id !in known ==>
          getTargetInfo(id).Failure? && IsUnknownTargetFailure(getTargetInfo(id).error))
    && (forall props, id :: id !in known ==>
          launchBuildOnTarget(props, id).Fail? && IsUnknownTargetFailure(launchBuildOnTarget(props, id).error))
  }

  /** What a caller may rely on from any extension that keeps the contract: asking about an
      unknown target gives no info, and launching on it fails, both as `UnknownDeploymentTarget`
      with that class's title. */
  lemma UnknownTargetIsRejected(
    known: set<DeploymentTargetId>,
    listed: seq<DeploymentTargetIdAndStatus>,
    getTargetInfo: DeploymentTargetId -> Result<TargetInfo, DeploymentError>,
    launchBuildOnTarget: (BuildProperties, DeploymentTargetId) -> Outcome<DeploymentError>,
    props: BuildProperties,
    id: DeploymentTargetId)
    requires RejectsUnknownTargets(known, listed, getTargetInfo, launchBuildOnTarget)
    requires id !in known
    ensures getTargetInfo(id).Failure?
    ensures Title(getTargetInfo(id).error) == Some("Cannot find deployment target")
    ensures launchBuildOnTarget(props, id).Fail?
    ensures Title(launchBuildOnTarget(props, id).error) == Some("Cannot find deployment target")
  {
  }

  // ---------------------------------------------------------------------------------------
  // A reference extension
  // ---------------------------------------------------------------------------------------

  /** One target an extension knows, with its current status and info. */
  datatype KnownTarget = KnownTarget(id: DeploymentTargetId, status: DeploymentTargetStatus, info: TargetInfo)

  /** An extension that knows a fixed list of targets and hands launches on them to a
      transport whose behaviour is not part of this model. */
  datatype Extension = Extension(
    targets: seq<KnownTarget>,
    transport: (BuildProperties, DeploymentTargetId) -> Outcome<DeploymentError>)

  /** All known targets and their status, in the extension's order. */
  function GetKnownTargets(e: Extension): seq<DeploymentTargetIdAndStatus>
  {
    seq(|e.targets|, i requires 0 <= i < |e.targets| => DeploymentTargetIdAndStatus(e.targets[i].id, e.targets[i].status))
  }

  /** The ids of the targets the extension knows. */
  ghost function KnownIds(e: Extension): set<DeploymentTargetId>
  {
    set i | 0 <= i < |e.targets| :: e.targets[i].id
  }

  /** The listing names exactly the known targets, each with its own current status. */
  lemma ListsKnownTargets(e: Extension)
    ensures forall id :: id in KnownIds(e) <==> exists p :: p in GetKnownTargets(e) && p.id == id
    ensures forall p :: p in GetKnownTargets(e) ==> exists t :: t in e.targets && t.id == p.id && t.status == p.status
  {
    forall id | id in KnownIds(e)
      ensures exists p :: p in GetKnownTargets(e) && p.id == id
    {
      var i :| 0 <= i < |e.targets| && e.targets[i].id == id;
      assert GetKnownTargets(e)[i] in GetKnownTargets(e);
    }
    forall p | p in GetKnownTargets(e)
      ensures exists t :: t in e.targets && t.id == p.id && t.status == p.status
      ensures p.id in KnownIds(e)
    {
      var i :| 0 <= i < |GetKnownTargets(e)| && GetKnownTargets(e)[i] == p;
      assert e.targets[i] in e.targets;
    }
  }

  /** The position of the first target named `id`, if any. */
  function FindTarget(targets: seq<KnownTarget>, id: DeploymentTargetId): (r: Option<nat>)
    ensures r.None? <==> forall i :: 0 <= i < |targets| ==> targets[i].id != id
    ensures r.Some? ==> r.value < |targets| && targets[r.value].id == id
    ensures r.Some? ==> forall j :: 0 <= j < r.value ==> targets[j].id != id
    decreases |targets|
  {
    if |targets| == 0 then None
    else if targets[0].id == id then Some(0)
    else
      match FindTarget(targets[1..], id)
      case None => None
      case Some(k) => Some(k + 1)
  }

  /** A target's info, or `UnknownDeploymentTarget` when the extension does not know it. */
  function GetTargetInfo(e: Extension, id: DeploymentTargetId): (r: Result<TargetInfo, DeploymentError>)
    ensures r.Success? <==> id in KnownIds(e)
    ensures r.Failure? ==> IsUnknownTargetFailure(r.error) && Message(r.error) == Some(DefaultMessageOf(UnknownDeploymentTarget))
    ensures r.Success? ==> exists i :: 0 <= i < |e.targets| && e.targets[i].id == id && r.value == e.targets[i].info
  {
    match FindTarget(e.targets, id)
    case None => Failure(Specific(UnknownDeploymentTarget, None))
    case Some(i) => Success(e.targets[i].info)
  }

  /** Launch a build: an unknown target is rejected, a known one is handed to the transport. */
  function LaunchBuildOnTarget(e: Extension, props: BuildProperties, id: DeploymentTargetId): (r: Outcome<DeploymentError>)
    ensures id !in KnownIds(e) ==> r.Fail? && IsUnknownTargetFailure(r.error)
    ensures id in KnownIds(e) ==> r == e.transport(props, id)
  {
    match GetTargetInfo(e, id)
    case Failure(err) => Fail(err)
    case Success(_) => e.transport(props, id)
  }

  /** The reference extension keeps the contract: it knows exactly the targets it lists. */
  lemma ReferenceKeepsContract(e: Extension)
    ensures RejectsUnknownTargets(KnownIds(e), GetKnownTargets(e),
              id => GetTargetInfo(e, id), (props, id) => LaunchBuildOnTarget(e, props, id))
  {
    ListsKnownTargets(e);
  }

  /** A target is listed by `GetKnownTargets` exactly when `GetTargetInfo` resolves it. */
  lemma ListedIffResolvable(e: Extension, id: DeploymentTargetId)
    ensures (exists i :: 0 <= i < |GetKnownTargets(e)| && GetKnownTargets(e)[i].id == id)
        <==> GetTargetInfo(e, id).Success?
  {
    if GetTargetInfo(e, id).Success? {
      var i :| 0 <= i < |e.targets| && e.targets[i].id == id;
      assert GetKnownTargets(e)[i].id == id;
    }
    if i :| 0 <= i < |GetKnownTargets(e)| && GetKnownTargets(e)[i].id == id {
      assert e.targets[i].id in KnownIds(e);
    }
  }

  /** An extension that knows no targets lists none, and rejects every target, both when asked
      for its info and when asked to launch on it. */
  lemma NoTargetsRejectsAll(
    transport: (BuildProperties, DeploymentTargetId) -> Outcome<DeploymentError>,
    props: BuildProperties,
    id: DeploymentTargetId)
    ensures GetKnownTargets(Extension([], transport)) == []
    ensures GetTargetInfo(Extension([], transport), id).Failure?
    ensures IsUnknownTargetFailure(GetTargetInfo(Extension([], transport), id).error)
    ensures LaunchBuildOnTarget(Extension([], transport), props, id).Fail?
    ensures IsUnknownTargetFailure(LaunchBuildOnTarget(Extension([], transport), props, id).error)
  {
  }
}
