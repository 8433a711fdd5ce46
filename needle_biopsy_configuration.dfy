/**
 * The needle-biopsy example's tracker configuration: the tracker type,
 * the sub-configuration that type needs (NDI for Polaris and Aurora,
 * Micron for Micron), and the validity check run before tracking starts.
 * Only the Aurora check looks at anything: its frequency must be positive.
 */
module NeedleBiopsyConfiguration {
  import opened Wrappers

  /** `Unset` stands for a tracker type never set, or set to a value
      outside the three known ones. */
  datatype TrackerType = Polaris | Aurora | Micron | Unset

  /** The name a tracker type is shown under. */
  function TrackerTypeName(t: TrackerType): string
  {
    match t
    case Polaris => "Polaris"
    case Aurora => "Aurora"
    case Micron => "Micron"
    case Unset => "Not Defined"
  }

  /** Known types get their own names, all different, and only an unknown
      type is shown as "Not Defined". */
  lemma TrackerTypeNames(a: TrackerType, b: TrackerType)
    ensures TrackerTypeName(a) == TrackerTypeName(b) <==> a == b
    ensures TrackerTypeName(a) == "Not Defined" <==> a == Unset
  {
    if a != b {
      assert TrackerTypeName(a)[0] != TrackerTypeName(b)[0] || |TrackerTypeName(a)| != |TrackerTypeName(b)|;
    }
  }

  /** The fields of the NDI and Micron sub-configurations this model uses. */
  datatype NdiTrackerConfiguration = NdiTrackerConfiguration(frequency: real, toolCount: nat)
  datatype MicronTrackerConfiguration = MicronTrackerConfiguration(frequency: real, toolCount: nat)

  datatype Message = NoMessage | UnknownTrackerType | InvalidFrequency

  function MessageText(m: Message): string
  {
    match m
    case NoMessage => ""
    case UnknownTrackerType => "Unknown tracker type"
    case InvalidFrequency => "Invalid frequency, must be positive"
  }

  /** The outcome of the validity check: 1 or 0, and the message it leaves.
      An unknown type keeps no earlier message: it always sets its own. */
  function Validity(t: TrackerType, ndi: Option<NdiTrackerConfiguration>): (int, Message)
    requires t == Aurora ==> ndi.Some?
  {
    match t
    case Polaris => (1, NoMessage)
    case Micron => (1, NoMessage)
    case Aurora => if ndi.value.frequency <= 0.0 then (0, InvalidFrequency) else (1, NoMessage)
    case Unset => (0, UnknownTrackerType)
  }

  /** A configuration is valid exactly when its type is known and, for
      an Aurora, its frequency is positive; a valid one carries no
      message and an invalid one says why. */
  lemma ValidityOutcome(t: TrackerType, ndi: Option<NdiTrackerConfiguration>)
    requires t == Aurora ==> ndi.Some?
    ensures var (valid, message) := Validity(t, ndi);
      (valid == 1 || valid == 0) &&
      (valid == 1 <==> t in {Polaris, Micron} || (t == Aurora && ndi.value.frequency > 0.0)) &&
      (valid == 1 <==> MessageText(message) == "") &&
      (t == Unset ==> MessageText(message) == "Unknown tracker type") &&
      (t == Aurora && valid == 0 ==> MessageText(message) == "Invalid frequency, must be positive")
  {
  }

  class TrackerConfiguration {
    /** What a newly allocated sub-configuration holds. */
    const newNdiConfiguration: NdiTrackerConfiguration
    const newMicronConfiguration: MicronTrackerConfiguration
    var trackerType: TrackerType
    var ndiTrackerConfiguration: Option<NdiTrackerConfiguration>
    var micronTrackerConfiguration: Option<MicronTrackerConfiguration>
    var validityErrorMessage: Message

    /** The type in force has its sub-configuration. */
    ghost predicate Valid()
      reads this
    {
      (trackerType in {Polaris, Aurora} ==> ndiTrackerConfiguration.Some?) &&
      (trackerType == Micron ==> micronTrackerConfiguration.Some?)
    }

    constructor (ndiDefault: NdiTrackerConfiguration, micronDefault: MicronTrackerConfiguration)
      ensures Valid() && trackerType == Unset && validityErrorMessage == NoMessage
      ensures ndiTrackerConfiguration.None? && micronTrackerConfiguration.None?
      ensures newNdiConfiguration == ndiDefault && newMicronConfiguration == micronDefault
    {
      newNdiConfiguration := ndiDefault;
      newMicronConfiguration := micronDefault;
      trackerType := Unset;
      ndiTrackerConfiguration := None;
      micronTrackerConfiguration := None;
      validityErrorMessage := NoMessage;
    }

    /** Sets the type and gives it a new sub-configuration of its kind;
        the other kind's sub-configuration is kept. */
    method SetTrackerType(t: TrackerType)
      requires Valid()
      modifies this
      ensures Valid() && trackerType == t && validityErrorMessage == old(validityErrorMessage)
      ensures ndiTrackerConfiguration ==
        if t in {Polaris, Aurora} then Some(newNdiConfiguration) else old(ndiTrackerConfiguration)
      ensures micronTrackerConfiguration ==
        if t == Micron then Some(newMicronConfiguration) else old(micronTrackerConfiguration)
    {
      trackerType := t;
      match t
      case Polaris => ndiTrackerConfiguration := Some(newNdiConfiguration);
      case Aurora => ndiTrackerConfiguration := Some(newNdiConfiguration);
      case Micron => micronTrackerConfiguration := Some(newMicronConfiguration);
      case Unset =>
    }

    method GetTrackerTypeAsString() returns (name: string)
      ensures name == TrackerTypeName(trackerType)
      ensures name == "Not Defined" <==> trackerType == Unset
    {
      name := TrackerTypeName(trackerType);
      TrackerTypeNames(trackerType, Unset);
    }

    /** Checks the configuration of the type in force, leaving the reason
        for a failure in the message. */
    method CheckValidility() returns (valid: int)
      requires Valid()
      modifies this
      ensures Valid() && (valid, validityErrorMessage) == Validity(trackerType, ndiTrackerConfiguration)
      ensures trackerType == old(trackerType) && ndiTrackerConfiguration == old(ndiTrackerConfiguration)
      ensures micronTrackerConfiguration == old(micronTrackerConfiguration)
    {
      match trackerType
      case Polaris => valid := CheckPolarisValidility();
      case Aurora => valid := CheckAuroraValidility();
      case Micron => valid := CheckMicronValidility();
      case Unset =>
        validityErrorMessage := UnknownTrackerType;
        valid := 0;
    }

    method CheckAuroraValidility() returns (valid: int)
      requires ndiTrackerConfiguration.Some?
      modifies this
      ensures trackerType == old(trackerType) && ndiTrackerConfiguration == old(ndiTrackerConfiguration)
      ensures micronTrackerConfiguration == old(micronTrackerConfiguration)
      ensures (valid, validityErrorMessage) == Validity(Aurora, ndiTrackerConfiguration)
    {
      validityErrorMessage := NoMessage;
      if ndiTrackerConfiguration.value.frequency <= 0.0 {
        validityErrorMessage := InvalidFrequency;
        return 0;
      }
      return 1;
    }

    method CheckPolarisValidility() returns (valid: int)
      modifies this
      ensures valid == 1 && validityErrorMessage == NoMessage
      ensures trackerType == old(trackerType) && ndiTrackerConfiguration == old(ndiTrackerConfiguration)
      ensures micronTrackerConfiguration == old(micronTrackerConfiguration)
    {
      validityErrorMessage := NoMessage;
      return 1;
    }

    method CheckMicronValidility() returns (valid: int)
      modifies this
      ensures valid == 1 && validityErrorMessage == NoMessage
      ensures trackerType == old(trackerType) && ndiTrackerConfiguration == old(ndiTrackerConfiguration)
      ensures micronTrackerConfiguration == old(micronTrackerConfiguration)
    {
      validityErrorMessage := NoMessage;
      return 1;
    }
  }
}
