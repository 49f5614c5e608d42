/** The exceptions deployment operations throw, as one datatype. Catching by class becomes a
    predicate on the value: every specific failure is also an `OperationFailed`, which always
    carries a title, while `OperationAborted` carries no title and no message of its own. */
module DeploymentErrors {
  import opened Wrappers

  /** The three subclasses of `OperationFailed` that fix their own title. */
  datatype SpecificFailure = UnknownDeploymentTarget | NoResponseFromDeploymentTarget | CorruptBuild

  /** A thrown exception. `subclass` is `None` for a plain `OperationFailed` built from any
      title; a specific failure is built only by `Specific`, which fixes its title. */
  datatype DeploymentError =
    | OperationAborted
    | OperationFailed(subclass: Option<SpecificFailure>, title: string, message: string)

  /** The title each specific failure passes to its base class. */
  function TitleOf(k: SpecificFailure): string
  {
    match k
    case UnknownDeploymentTarget => "Cannot find deployment target"
    case NoResponseFromDeploymentTarget => "No response from deployment target"
    case CorruptBuild => "Corrupt build"
  }

  /** The message each specific failure uses when its caller supplies none. */
  function DefaultMessageOf(k: SpecificFailure): string
  {
    match k
    case UnknownDeploymentTarget => "Unknown deployment target."
    case NoResponseFromDeploymentTarget => "No response from deployment target."
    case CorruptBuild => "Corrupt build."
  }

  /** Does a `catch` of the `OperationFailed` class catch `e`? */
  predicate IsOperationFailed(e: DeploymentError)
  {
    e.OperationFailed?
  }

  /** Does a `catch` of the class of specific failure `k` catch `e`? Each specific failure
      derives from `OperationFailed`, so whatever is caught as one is caught as the other. */
  predicate IsA(e: DeploymentError, k: SpecificFailure)
    ensures IsA(e, k) ==> IsOperationFailed(e)
  {
    e.OperationFailed? && e.subclass == Some(k)
  }

  /** The title a handler can read: only an `OperationFailed` has one. */
  function Title(e: DeploymentError): (t: Option<string>)
    ensures t.Some? <==> IsOperationFailed(e)
  {
    match e
    case OperationAborted => None
    case OperationFailed(_, title, _) => Some(title)
  }

  /** The message a handler can read: an aborted operation carries no message of its own. */
  function Message(e: DeploymentError): (m: Option<string>)
    ensures m.Some? <==> IsOperationFailed(e)
  {
    match e
    case OperationAborted => None
    case OperationFailed(_, _, message) => Some(message)
  }

  /** An exception as its constructors can build it: a specific failure always has its own
      class's title. */
  predicate WellFormed(e: DeploymentError)
  {
    e.OperationFailed? && e.subclass.Some? ==> e.title == TitleOf(e.subclass.value)
  }

  /** A plain `OperationFailed` with a caller-chosen title and message. It is caught as an
      `OperationFailed` but as none of the specific failures. */
  function Failed(title: string, message: string): (e: DeploymentError)
    ensures WellFormed(e) && IsOperationFailed(e)
    ensures forall k :: !IsA(e, k)
    ensures Title(e) == Some(title) && Message(e) == Some(message)
  {
    OperationFailed(None, title, message)
  }

  /** The specific failure `k`, with `message` in place of the default when one is supplied.
      The title is always the class's own. */
  function Specific(k: SpecificFailure, message: Option<string>): (e: DeploymentError)
    ensures WellFormed(e) && IsOperationFailed(e) && IsA(e, k)
    ensures forall k' :: IsA(e, k') <==> k' == k
    ensures Title(e) == Some(TitleOf(k))
    ensures message.Some? ==> Message(e) == Some(message.value)
    ensures message.None? ==> Message(e) == Some(DefaultMessageOf(k))
  {
    OperationFailed(Some(k), TitleOf(k), message.GetOr(DefaultMessageOf(k)))
  }

  /** The titles and default messages of the three specific failures. */
  lemma SpecificFailureTable()
    ensures Specific(UnknownDeploymentTarget, None)
         == OperationFailed(Some(UnknownDeploymentTarget), "Cannot find deployment target", "Unknown deployment target.")
    ensures Specific(NoResponseFromDeploymentTarget, None)
         == OperationFailed(Some(NoResponseFromDeploymentTarget), "No response from deployment target", "No response from deployment target.")
    ensures Specific(CorruptBuild, None)
         == OperationFailed(Some(CorruptBuild), "Corrupt build", "Corrupt build.")
  {
  }

  /** A caller-supplied message replaces the default but never the title. */
  lemma MessageNeverReplacesTitle(k: SpecificFailure, m1: Option<string>, m2: Option<string>)
    ensures Title(Specific(k, m1)) == Title(Specific(k, m2))
  {
  }

  /** Among well-formed exceptions, a specific failure's title tells which class it is. */
  lemma TitleIdentifiesSpecificFailure(e1: DeploymentError, k1: SpecificFailure, e2: DeploymentError, k2: SpecificFailure)
    requires WellFormed(e1) && IsA(e1, k1)
    requires WellFormed(e2) && IsA(e2, k2)
    ensures Title(e1) == Title(e2) <==> k1 == k2
  {
  }

  /** Whatever catches a specific failure can also catch it as an `OperationFailed` and read a
      title from it; an aborted operation is caught by neither and has no title or message of
      its own. */
  lemma SpecificIsOperationFailed(e: DeploymentError, k: SpecificFailure)
    ensures IsA(e, k) ==> IsOperationFailed(e) && Title(e).Some? && Message(e).Some?
    ensures !IsOperationFailed(OperationAborted) && !IsA(OperationAborted, k)
    ensures Title(OperationAborted) == None && Message(OperationAborted) == None
  {
  }
}
