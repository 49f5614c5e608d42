/** The verdict of checking a build against a target: one result per category (hardware and
    SDK) and the aggregate `Passed` predicate. */
module BuildChecks {
  import opened Wrappers

  /** Outcome of one category's check. */
  datatype CheckStatus = Ok | Failed

  /** The underlying enum value: `Ok` is explicitly 0, `Failed` follows it. */
  function CheckStatusValue(c: CheckStatus): (v: nat)
    ensures v == 0 <==> c == Ok
    ensures v < 2
  {
    match c
    case Ok => 0
    case Failed => 1
  }

  /** The check status with underlying value `v`, if any: exactly two exist. */
  function CheckStatusFromValue(v: int): (c: Option<CheckStatus>)
    ensures c.Some? <==> 0 <= v < 2
    ensures c.Some? ==> CheckStatusValue(c.value) == v
  {
    if v == 0 then Some(Ok) else if v == 1 then Some(Failed) else None
  }

  /** One category's result. The message is free text (`None` stands for a null string):
      nothing ties its presence to the status. */
  datatype CategoryCheckResult = CategoryCheckResult(status: CheckStatus, failureMessage: Option<string>)

  /** The two categories a build is checked in. */
  datatype Category = Hardware | Sdk

  /** The aggregate verdict: both categories are always present, whatever their status. */
  datatype BuildCheckResult = BuildCheckResult(hardware: CategoryCheckResult, sdk: CategoryCheckResult)

  /** The result recorded for category `c`. */
  function ResultOf(r: BuildCheckResult, c: Category): CategoryCheckResult
  {
    match c
    case Hardware => r.hardware
    case Sdk => r.sdk
  }

  /** The categories whose check failed. */
  function FailedCategories(r: BuildCheckResult): (failed: set<Category>)
    ensures forall c :: c in failed <==> ResultOf(r, c).status == Failed
  {
    (if r.hardware.status == Failed then {Hardware} else {})
    + (if r.sdk.status == Failed then {Sdk} else {})
  }

  /** A build passes when it is compatible with the target in both categories. */
  predicate Passed(r: BuildCheckResult)
    ensures Passed(r) <==> FailedCategories(r) == {}
  {
    r.hardware.status == Ok && r.sdk.status == Ok
  }

  /** All four combinations of category statuses, with any messages: only Ok/Ok passes. */
  lemma PassedTruthTable(mh: Option<string>, ms: Option<string>)
    ensures Passed(BuildCheckResult(CategoryCheckResult(Ok, mh), CategoryCheckResult(Ok, ms)))
    ensures !Passed(BuildCheckResult(CategoryCheckResult(Ok, mh), CategoryCheckResult(Failed, ms)))
    ensures !Passed(BuildCheckResult(CategoryCheckResult(Failed, mh), CategoryCheckResult(Ok, ms)))
    ensures !Passed(BuildCheckResult(CategoryCheckResult(Failed, mh), CategoryCheckResult(Failed, ms)))
  {
  }

  /** Replacing both failure messages never changes the verdict. */
  lemma PassedIgnoresMessages(r: BuildCheckResult, mh: Option<string>, ms: Option<string>)
    ensures Passed(r.(hardware := r.hardware.(failureMessage := mh), sdk := r.sdk.(failureMessage := ms)))
         == Passed(r)
  {
  }

  /** A build fails exactly when some category records a failure. */
  lemma FailureIsAttributed(r: BuildCheckResult)
    ensures !Passed(r) <==> exists c :: ResultOf(r, c).status == Failed
  {
  }
}
