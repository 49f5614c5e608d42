/** Identity, status and capability values of a deployment target: a device, emulator or host
    that can receive and run a build. */
module DeploymentTargets {
  import opened Wrappers

  // ---------------------------------------------------------------------------------------
  // Target identity
  // ---------------------------------------------------------------------------------------

  /** The handle naming one deployment target: a plain wrapper around a string. No validation
      is applied, so any string, the empty one included, is an id. */
  datatype DeploymentTargetId = DeploymentTargetId(id: string)

  /** The implicit conversion from a string to an id. */
  function FromString(s: string): (t: DeploymentTargetId)
    ensures ToString(t) == s
  {
    DeploymentTargetId(s)
  }

  /** The implicit conversion from an id back to its string. The string is all an id holds,
      so the conversion loses nothing. */
  function ToString(t: DeploymentTargetId): (s: string)
    ensures forall u: DeploymentTargetId :: u.id == s ==> u == t
  {
    t.id
  }

  /** An id converted to a string and back is the same id. */
  lemma IdRoundTrip(t: DeploymentTargetId)
    ensures FromString(ToString(t)) == t
  {
  }

  /** Two strings give the same id exactly when they are the same string. */
  lemma FromStringInjective(a: string, b: string)
    ensures FromString(a) == FromString(b) <==> a == b
  {
  }

  /** The empty string is accepted as an id and survives the round trip. */
  lemma EmptyIdAccepted()
    ensures FromString("").id == ""
    ensures ToString(FromString("")) == ""
  {
  }

  // ---------------------------------------------------------------------------------------
  // Target status
  // ---------------------------------------------------------------------------------------

  /** Reachability of a target: ready; available but with issues; existing but not
      connectable; and nonexistent or no longer responding. */
  datatype DeploymentTargetStatus = Ready | NotReady | Unavailable | Unknown

  /** The underlying value of each status: the enum declares no explicit values, so they are
      numbered 0 to 3 in declaration order. */
  function StatusValue(s: DeploymentTargetStatus): (v: nat)
    ensures v < 4
    ensures StatusFromValue(v) == Some(s)
  {
    match s
    case Ready => 0
    case NotReady => 1
    case Unavailable => 2
    case Unknown => 3
  }

  /** The status with underlying value `v`, if `v` names one. */
  function StatusFromValue(v: int): Option<DeploymentTargetStatus>
  {
    if v == 0 then Some(Ready)
    else if v == 1 then Some(NotReady)
    else if v == 2 then Some(Unavailable)
    else if v == 3 then Some(Unknown)
    else None
  }

  /** Exactly four statuses exist: each of the values 0 to 3 names one, and no other value
      does. */
  lemma ExactlyFourStatuses(v: int)
    ensures StatusFromValue(v).Some? <==> 0 <= v < 4
    ensures StatusFromValue(v).Some? ==> StatusValue(StatusFromValue(v).value) == v
  {
  }

  /** The pairing of an id and its status that target discovery returns. */
  datatype DeploymentTargetIdAndStatus = DeploymentTargetIdAndStatus(
    id: DeploymentTargetId,
    status: DeploymentTargetStatus)

  // ---------------------------------------------------------------------------------------
  // Support flags
  // ---------------------------------------------------------------------------------------

  /** The operations a target may support. `None` is not a flag of its own: it is the empty
      set of flags. */
  datatype SupportFlag = Launch

  /** The bit each flag occupies in the flags enum: `Launch` is bit 0. */
  function FlagBit(f: SupportFlag): bv32
  {
    match f
    case Launch => 1 << 0
  }

  /** The enum value of a set of flags: the bits of its members or-ed together. */
  function ToBits(flags: set<SupportFlag>): (b: bv32)
    ensures b == 0 <==> flags == {}
    ensures forall f :: f in flags <==> b & FlagBit(f) != 0
  {
    assert forall f :: FlagBit(f) == 1 && f == Launch;
    assert forall f | f in flags :: f == Launch;
    if Launch in flags then FlagBit(Launch) else 0
  }

  /** The set of flags whose bits are set in `b`; bits no flag declares are ignored. */
  function FromBits(b: bv32): (flags: set<SupportFlag>)
    ensures forall f :: f in flags <==> b & FlagBit(f) != 0
  {
    assert forall f :: FlagBit(f) == 1 && f == Launch;
    if b & FlagBit(Launch) != 0 then {Launch} else {}
  }

  /** A set of flags survives a trip through its enum value. */
  lemma FlagsRoundTrip(flags: set<SupportFlag>)
    ensures FromBits(ToBits(flags)) == flags
  {
  }

  /** An enum value survives a trip through its set of flags exactly when it holds no bit
      outside the declared flags. */
  lemma BitsRoundTrip(b: bv32)
    ensures ToBits(FromBits(b)) == b <==> b & !FlagBit(Launch) == 0
  {
  }

  /** A target supports launching exactly when `Launch` is among its flags. */
  predicate CanLaunch(flags: set<SupportFlag>)
  {
    Launch in flags
  }

  /** Launch support read from the set agrees with launch support read from the enum value;
      `None` supports nothing. */
  lemma CanLaunchMatchesBits(flags: set<SupportFlag>)
    ensures CanLaunch(flags) <==> ToBits(flags) & FlagBit(Launch) != 0
    ensures !CanLaunch(FromBits(0))
  {
  }
}
