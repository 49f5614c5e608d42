# Deployment-target contract of the Unity editor

This project models the contract through which the Unity editor talks to deployment targets.
A deployment target is a device, emulator or host that can receive a build and run it. The
model covers the code in `Editor/Mono/DeploymentTargets/IDeploymentTargetsExtension.cs`:

- the string-wrapping `DeploymentTargetId` and its two implicit conversions;
- the four-valued `DeploymentTargetStatus`, the `(id, status)` pair that discovery returns,
  and the `[Flags]` support-flag enum (`None = 0`, `Launch = 1 << 0`);
- the per-category `CategoryCheckResult`, the aggregate `BuildCheckResult` and its `Passed()`
  verdict;
- the exception hierarchy. `OperationAborted` carries no title and no message of its own.
  `OperationFailed` carries a title and a message. `UnknownDeploymentTarget`, `NoResponseFromDeploymentTarget` and
  `CorruptBuild` each fix their title and have a default message;
- `IDeploymentTargetsExtension`, the interface an extension implements, with its one
  documented promise: fetching info for an unknown target, or launching a build on one,
  throws `UnknownDeploymentTarget`.

Modules:

- `Wrappers` (`wrappers.dfy`) holds `Option`, `Result` and `Outcome`. A member that throws
  becomes one that returns a `Result` or an `Outcome`.
- `DeploymentTargets` (`deployment_targets.dfy`) holds target identity, status and support
  flags. The C# `FlagSet` is modelled as a set of flags, related to the enum's bit value by
  `ToBits` and `FromBits`.
- `BuildChecks` (`build_check.dfy`) holds the check statuses and results and `Passed`.
- `DeploymentErrors` (`deployment_errors.dfy`) holds the exceptions as one datatype.
  - Every specific failure is an `OperationFailed` value tagged with its subclass.
  - `IsOperationFailed` and `IsA` stand for `catch` clauses of each class.
  - `Title` and `Message` are what a handler can read.
- `DeploymentTargetsExtension` (`extension.dfy`) holds the extension contract.
  - The interface's promise is stated as the ghost predicate `RejectsUnknownTargets` over an
    implementation's operations. An implementation is given as a ghost set of known ids, the
    listing its `GetKnownTargets` returns, and its `getTargetInfo` and `launchBuildOnTarget`
    functions. The known ids must be exactly the listed ones.
  - `Extension` is a minimal reference implementation. It knows a list of targets and shows
    that the contract can be met. It hands launches on known targets to a `transport`
    parameter.
  - `BuildProperties` is an opaque type.

The code does not tie a failure message to a `Failed` status and does not reject an empty id.
It defines no launch state machine, capability check before launching, per-target
serialisation of launches, timeouts or retries. It defines no cancellation mechanism either,
only the `OperationAbortedException` signal, which the model has as `OperationAborted`. None
of the missing mechanisms is modelled.

## Model

| member | source | states |
|---|---|---|
| DeploymentTargets.FromString | Editor/Mono/DeploymentTargets/IDeploymentTargetsExtension.cs:17-25 | converting a string to an id and back yields the same string |
| DeploymentTargets.ToString | Editor/Mono/DeploymentTargets/IDeploymentTargetsExtension.cs:27-30 | converting an id to its string loses nothing: any id with that string is the same id |
| DeploymentTargets.IdRoundTrip | Editor/Mono/DeploymentTargets/IDeploymentTargetsExtension.cs:22-30 | converting an id to a string and back yields a structurally equal id |
| DeploymentTargets.FromStringInjective | Editor/Mono/DeploymentTargets/IDeploymentTargetsExtension.cs:13-25 | two strings give the same id exactly when they are equal, so id equality is string equality |
| DeploymentTargets.EmptyIdAccepted | Editor/Mono/DeploymentTargets/IDeploymentTargetsExtension.cs:17-25 | no validation is applied, so the empty string is an id and survives the round trip |
| DeploymentTargets.StatusValue | Editor/Mono/DeploymentTargets/IDeploymentTargetsExtension.cs:33-43 | each status has an underlying value below 4 that maps back to the same status |
| DeploymentTargets.ExactlyFourStatuses | Editor/Mono/DeploymentTargets/IDeploymentTargetsExtension.cs:33-43 | exactly the values 0 to 3 name a status (Ready, NotReady, Unavailable, Unknown), each one distinct |
| DeploymentTargets.ToBits | Editor/Mono/DeploymentTargets/IDeploymentTargetsExtension.cs:51-56 | the enum value of a flag set is 0 (`None`) exactly when the set is empty, and has a flag's bit set exactly when the flag is in the set |
| DeploymentTargets.FromBits | Editor/Mono/DeploymentTargets/IDeploymentTargetsExtension.cs:51-56 | a flag is in the set decoded from an enum value exactly when its bit is set (`Launch` is bit 0) |
| DeploymentTargets.FlagsRoundTrip | Editor/Mono/DeploymentTargets/IDeploymentTargetsExtension.cs:51-56 | every flag set survives encoding to its enum value and decoding back |
| DeploymentTargets.BitsRoundTrip | Editor/Mono/DeploymentTargets/IDeploymentTargetsExtension.cs:51-56 | an enum value survives decoding and re-encoding exactly when it has no undeclared bits |
| DeploymentTargets.CanLaunchMatchesBits | Editor/Mono/DeploymentTargets/IDeploymentTargetsExtension.cs:51-56 | a target supports launching iff `Launch` is in its flags, iff bit 0 of the enum value is set; `None` supports nothing |
| BuildChecks.CheckStatusValue | Editor/Mono/DeploymentTargets/IDeploymentTargetsExtension.cs:58-62 | `Ok` is exactly the status with value 0, and only two values are declared |
| BuildChecks.CheckStatusFromValue | Editor/Mono/DeploymentTargets/IDeploymentTargetsExtension.cs:58-62 | exactly the values 0 and 1 name a check status, and each maps back to its value |
| BuildChecks.FailedCategories | Editor/Mono/DeploymentTargets/IDeploymentTargetsExtension.cs:64-73 | a category is listed as failed exactly when its own result has status `Failed` |
| BuildChecks.Passed | Editor/Mono/DeploymentTargets/IDeploymentTargetsExtension.cs:75-79 | a build passes iff no category failed |
| BuildChecks.PassedTruthTable | Editor/Mono/DeploymentTargets/IDeploymentTargetsExtension.cs:75-79 | of the four Ok/Failed combinations only Ok/Ok passes, whatever the messages |
| BuildChecks.PassedIgnoresMessages | Editor/Mono/DeploymentTargets/IDeploymentTargetsExtension.cs:64-79 | replacing either failure message never changes the verdict |
| BuildChecks.FailureIsAttributed | Editor/Mono/DeploymentTargets/IDeploymentTargetsExtension.cs:70-79 | a build fails exactly when some category records a failure |
| DeploymentErrors.IsA | Editor/Mono/DeploymentTargets/IDeploymentTargetsExtension.cs:102-115 | whatever a `catch` of a specific failure class catches is also caught as an `OperationFailed` |
| DeploymentErrors.Title | Editor/Mono/DeploymentTargets/IDeploymentTargetsExtension.cs:91-100 | an exception has a title exactly when it is an `OperationFailed` |
| DeploymentErrors.Message | Editor/Mono/DeploymentTargets/IDeploymentTargetsExtension.cs:91-100 | an exception carries a message of its own exactly when it is an `OperationFailed`; an abort carries none |
| DeploymentErrors.Failed | Editor/Mono/DeploymentTargets/IDeploymentTargetsExtension.cs:93-100 | a plain `OperationFailed` keeps the given title and message and is caught as none of the specific failures |
| DeploymentErrors.Specific | Editor/Mono/DeploymentTargets/IDeploymentTargetsExtension.cs:102-115 | a specific failure is an `OperationFailed` of exactly its own class, always has its class's title, and has the caller's message if one is given, else the default |
| DeploymentErrors.SpecificFailureTable | Editor/Mono/DeploymentTargets/IDeploymentTargetsExtension.cs:102-115 | the titles and default messages of `UnknownDeploymentTarget`, `NoResponseFromDeploymentTarget` and `CorruptBuild` |
| DeploymentErrors.MessageNeverReplacesTitle | Editor/Mono/DeploymentTargets/IDeploymentTargetsExtension.cs:102-115 | a supplied message never changes the title |
| DeploymentErrors.TitleIdentifiesSpecificFailure | Editor/Mono/DeploymentTargets/IDeploymentTargetsExtension.cs:102-115 | the three fixed titles are distinct, so two specific failures have the same title exactly when they are of the same class |
| DeploymentErrors.SpecificIsOperationFailed | Editor/Mono/DeploymentTargets/IDeploymentTargetsExtension.cs:91-115 | every specific failure is caught as an `OperationFailed` with a title and a message; `OperationAborted` is neither and carries no title or message of its own |
| DeploymentTargetsExtension.RejectsUnknownTargets | Editor/Mono/DeploymentTargets/IDeploymentTargetsExtension.cs:117-132 | under the interface's contract, an id the extension does not list gets no info and cannot be launched on, both failing with `UnknownDeploymentTarget` |
| DeploymentTargetsExtension.UnknownTargetIsRejected | Editor/Mono/DeploymentTargets/IDeploymentTargetsExtension.cs:123-131 | for any extension keeping the contract, fetching an unknown target's info is a failure and launching on it fails, both titled "Cannot find deployment target" |
| DeploymentTargetsExtension.ListsKnownTargets | Editor/Mono/DeploymentTargets/IDeploymentTargetsExtension.cs:119-121 | the reference extension's listing names exactly its known targets, each with that target's own status |
| DeploymentTargetsExtension.FindTarget | Editor/Mono/DeploymentTargets/IDeploymentTargetsExtension.cs:123-126 | the reference extension's lookup of an id: it finds nothing exactly when no known target bears the id, and otherwise finds a target bearing it (the first, a choice of the reference extension, not of the interface) |
| DeploymentTargetsExtension.GetTargetInfo | Editor/Mono/DeploymentTargets/IDeploymentTargetsExtension.cs:123-126 | the reference extension returns info exactly for listed ids, that target's own info; otherwise it fails with `UnknownDeploymentTarget` and its default message |
| DeploymentTargetsExtension.LaunchBuildOnTarget | Editor/Mono/DeploymentTargets/IDeploymentTargetsExtension.cs:128-131 | launching on an unlisted id fails with `UnknownDeploymentTarget`; on a listed id the outcome is the transport's |
| DeploymentTargetsExtension.ReferenceKeepsContract | Editor/Mono/DeploymentTargets/IDeploymentTargetsExtension.cs:117-132 | the reference extension keeps the interface's contract: it knows exactly the ids it lists and rejects every other id in both operations |
| DeploymentTargetsExtension.ListedIffResolvable | Editor/Mono/DeploymentTargets/IDeploymentTargetsExtension.cs:119-126 | an id is listed among the known targets exactly when fetching its info succeeds |
| DeploymentTargetsExtension.NoTargetsRejectsAll | Editor/Mono/DeploymentTargets/IDeploymentTargetsExtension.cs:119-126 | an extension that knows no targets lists an empty sequence, and both fetching info for and launching on any id fail with `UnknownDeploymentTarget` |

## Left out

- Progress handlers and "can be called from a background thread" (lines 120, 125, 130) are
  about threading and progress reporting, not stateable logic. The `progressHandler`
  parameters are dropped.
- The `inner` exception argument of every exception constructor is not modelled. It only
  chains a cause.
- A C# `null` passed as an explicit message is not modelled. An omitted message is `None`,
  and a supplied one is a string.
- DeploymentTargetsExtension.RejectsUnknownTargets: the contract is stated for one snapshot of
  the extension's known targets. A real extension performs I/O, and targets come and go. An id
  missing from one listing may therefore resolve later. Failures other than the five modelled
  exceptions are not modelled either.
- The bodies of `IDeploymentTargetInfo.CheckBuild` and of the extension operations are not
  in the code; they are interface declarations.
  - A target's check is an arbitrary function of the build properties.
  - A launch on a known target is an arbitrary `transport` function.
  - `BuildProperties` (from `UnityEditor.Modules`) is not part of this model and is an
    opaque type.
- The internals of `FlagSet<T>` are not part of this model. Flags are a plain set, related
  to the enum's bit value.
- DeploymentTargets.FromString: a null string is not modelled. In C# a null string, or a
  `default` struct, passes through both conversions as a null id; a Dafny string cannot be
  null.
- BuildChecks.Passed: only the two declared check statuses are modelled. C# enums are open,
  so a cast such as `(CheckStatus)2` is a legal status. `Passed` returns false for it although
  no category has status `Failed`. "Passes iff no category failed" relies on the closed
  datatype. `BuildChecks.FailureIsAttributed` relies on it too. The same holds for undeclared
  `DeploymentTargetStatus` values, for which `StatusFromValue` gives `None`.
- BuildChecks.FailureIsAttributed: holds only for the two declared check statuses. For an
  undeclared value such as `(CheckStatus)2`, a build fails although no category has status
  `Failed`.
- DeploymentErrors.Title: a null title passed to the plain `OperationFailed` constructor is
  not modelled. The constructor stores any title without a check; the three specific failures
  always pass a literal title.
- DeploymentErrors.Message: the runtime's generated text is modelled as no message. An
  `OperationAborted`, built with the parameterless exception constructor, has a message
  generated by the runtime. So does an `OperationFailed` given a null message. Only a message
  the code supplies counts as the exception's own.
- DeploymentErrors.SpecificIsOperationFailed: says an abort has no message, in the same sense
  as `DeploymentErrors.Message`: no message of its own.
- The lightmap preview tab and the editor text field are GUI code bound to the engine. They
  are not part of this model.
