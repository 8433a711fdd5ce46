# IGSTK tracker-control layer in Dafny

This project models the tracker-control layer of IGSTK, the Image-Guided
Surgery Toolkit, and proves properties of the model:

- **Transforms** (`transform.dfy`): the `igstk::Transform` pose value.
  It has a translation, a versor rotation, an error value and a validity
  time stamp, and supports composition, inversion, the in-place setters,
  identity, numerical equivalence and object identity.
- **Ndi**, **NdiTracking**, **PolarisTracking**, **AuroraTracking**
  (`ndi.dfy`, `ndi_tracking.dfy`, `polaris_tracker.dfy`, `aurora_tracker.dfy`):
  the port bookkeeping of the NDI Polaris and Aurora trackers.
  - Freeing stale handles, initialising handles round after round and
    enabling them in the mode the tool type asks for.
  - Decoding port locations into the port-to-handle and port-to-enabled
    tables.
  - Writing virtual SROM images in sixteen hex-encoded 64-byte chunks.
  - Refilling the per-port transform buffer from a TX query, and filtering
    the ports whose tools are reported.
  - The NDI command interpreter is a scripted object. It records every
    command it is sent and answers from a `Script`.
- **TrackerControl** and **TrackerControllerTable**
  (`tracker_controller.dfy`, `tracker_controller_table.dfy`): the
  `TrackerController` lifecycle state machine of the tracker-configuration
  application.
  - Its 12 × 14 transition table.
  - The initialisation dispatch on the configuration family and the tool
    table it builds.
  - Start, stop and close, tool queries, and the error observer that maps
    error events to messages.
- **OIGTLinkReader** (`oigtlink_reader.dfy`): the OpenIGTLink
  tracker-configuration file reader state machine (10 states × 6 inputs).
- **ReslicerPlane** (`reslicer_plane.dfy`): the reslicer-plane spatial
  object.
  - Its partial transition table.
  - Orientation and mode compatibility, and the cursor bounds check.
  - Bounds normalisation and the orthogonal reslicing plane.
- **PolarisConfiguration** (`polaris_configuration.dfy`): the Vicra and
  Hybrid Polaris tracker configurations and their tool acceptance rules.
- **NeedleBiopsyConfiguration** (`needle_biopsy_configuration.dfy`): the
  tracker configuration of the NeedleBiopsy example and its validity
  checks.
- **WebcamImaging** (`webcam_imager.dfy`): the webcam imager.
  - The error-code table and the frequency check.
  - The per-tool frame and status containers.
  - The result logic of opening the camera.
- **Wrappers** (`wrappers.dfy`): `Option`.

## Modelling choices

- **The state-machine engine.** `igstk::StateMachine` itself is not part of
  this model. Every state machine here is modelled with one first-in
  first-out queue of inputs.
  - Processing an input commits the new state first, then runs the action.
  - Inputs an action pushes go to the tail of the queue.
  - An action's own call to process inputs drains that same queue.
  - So a drain is one loop: take the head, commit, act, repeat.
  - The controller depends on this order. `TrackerInitializeProcessing`
    pushes a family input that only the attempting state accepts, so the
    new state must already be committed when the action runs.
  - A nested drain at the end of an action is the same as the outer loop
    going on. The reslicer's plane computation is the one action that
    drains in the middle: with a tool it first asks for the tool's
    transform and drains, then computes the plane. `Run` models that
    nested drain, so `Drain`, `Step` and `Run` are mutually recursive.
  - Each machine is written twice:
    - as functions (`Transition`, `Act`, `Step`, `Drain`, `Request`) over
      a value snapshot;
    - as a class whose processing methods, `PerformAction` and
      `ProcessInputs` are proved to produce exactly what those functions
      produce.
- **The NDI command interpreter and the device** are a `Script`. It holds
  the handle lists each query kind returns, and the successive answers to
  the uninitialised-handles query. A finite list of answers, after which
  the device reports no uninitialised handle, is what makes the
  initialisation loop terminate. It also holds the tool information,
  location and status of each handle, the TX transforms and the error code
  of each command.
- **The number of ports** of a Polaris is 12: three active ports and the
  passive ports "A" onwards. The number of ports of an Aurora is a
  constructor parameter.
- **Time** is a parameter `now`, in milliseconds. A time stamp is its start
  and expiration time. The overlap of two stamps is the later start and the
  earlier expiration. A stamp is valid at `t` when start ≤ t < expiration.
- **Floating point** is modelled as `real`. The error value
  `NumericTraits<double>::min()`, the smallest positive normal double, is
  the exact value 2^-1022.
- **Files, XML readers, OpenCV and the tracking device** are parameters:
  - file contents as `Option<seq<byte>>`;
  - the outcome of parsing the file as a `Parse` answer (parsed, no data, or an exception), given by a `FileSystem` parameter;
  - the camera's answer as a boolean;
  - the tool's answer to a transform request as an `Option`.

## Model

| member | source | states |
|---|---|---|
| Transforms.SmallestPositiveErrorIsPositive | IGSTK/Source/igstkTransform.cxx:29 | the default error value is strictly positive, never zero |
| Transforms.Transform.constructor | IGSTK/Source/igstkTransform.cxx:25-32 | a new transform has zero translation, identity rotation and the smallest positive error |
| Transforms.Transform.Copy | IGSTK/Source/igstkTransform.cxx:35-41 | the copy has the same error, translation, rotation and time stamp as the original |
| Transforms.Transform.Assign | IGSTK/Source/igstkTransform.cxx:80-87 | assignment copies all four fields of the source transform and nothing else |
| Transforms.Transform.SetTranslationAndRotation | IGSTK/Source/igstkTransform.cxx:92-102 | the new value is the given translation, rotation and error, stamped from now; it is valid exactly from now up to, not including, now plus the period, so at now exactly when the period is positive |
| Transforms.Transform.SetTranslation | IGSTK/Source/igstkTransform.cxx:107-116 | sets translation and error, restamps, and forces the identity rotation, which rotates every vector to itself |
| Transforms.Transform.SetRotation | IGSTK/Source/igstkTransform.cxx:121-130 | sets rotation and error, restamps, and forces a zero translation |
| Transforms.Transform.SetToIdentity | IGSTK/Source/igstkTransform.cxx:239-245 | zero translation, identity rotation, the smallest positive error and a new stamp |
| Transforms.Transform.Equals | IGSTK/Source/igstkTransform.cxx:216-226 | true exactly when both operands are the same object |
| Transforms.Transform.NotEquals | IGSTK/Source/igstkTransform.cxx:231-234 | the exact negation of Equals |
| Transforms.OverlapValidIffBothValid | IGSTK/Source/igstkTransform.cxx:72-73 | the overlap of two stamps is valid at t exactly when both stamps are |
| Transforms.TransformCompose | IGSTK/Source/igstkTransform.cxx:51-76 | rotation is left.rotation · right.rotation; translation is left.rotation applied to right.translation plus left.translation; error is the sum; valid exactly when both inputs are valid |
| Transforms.GetInverse | IGSTK/Source/igstkTransform.cxx:248-259 | the inverse keeps the error and the validity period, and its rotation has the same norm, so a unit rotation stays unit |
| Transforms.IdentityRotatesNothing | IGSTK/Source/igstkTransform.cxx:31 | the identity versor rotates every vector to itself |
| Transforms.RotateNegate | IGSTK/Source/igstkTransform.cxx:255-256 | rotating a negated vector gives the negated rotation |
| Transforms.ConjugateTimesUnit | IGSTK/Source/igstkTransform.cxx:254 | the conjugate of a unit versor times the versor is the identity |
| Transforms.InverseThenTransformIsIdentity | IGSTK/Source/igstkTransform.cxx:250-259 | composing the inverse with the transform gives zero translation, the identity rotation for a unit rotation, twice the error and the same stamp |
| Transforms.InverseInvolution | IGSTK/Source/igstkTransform.cxx:250-259 | inverting twice restores the rotation, error and stamp |
| Transforms.ComposeWithIdentity | IGSTK/Source/igstkTransform.cxx:51-76 | composing with an identity transform on either side keeps rotation and translation |
| Transforms.NumericallyEquivalentToItself | IGSTK/Source/igstkTransform.cxx:176-212 | a transform with a unit rotation is equivalent to itself for every tolerance that is not negative |
| Transforms.TranslationApartIsNotEquivalent | IGSTK/Source/igstkTransform.cxx:200-209 | a translation component further apart than the tolerance makes two transforms not equivalent, whatever their rotations |
| Transforms.RotationApartIsNotEquivalent | IGSTK/Source/igstkTransform.cxx:186-198 | a rotation error over the tolerance makes two transforms not equivalent, whatever their translations |
| Transforms.CloseTransformsAreEquivalent | IGSTK/Source/igstkTransform.cxx:176-212 | a rotation error and every translation component within the tolerance make two transforms equivalent |
| Transforms.Transform.IsNumericallyEquivalent | IGSTK/Source/igstkTransform.cxx:176-212 | the comparison loop answers exactly whether the two transforms are numerically equivalent: the rotation first, then each translation component, false at the first difference over the tolerance |
| Ndi.ModeFor | Source/igstkPolarisTracker.cxx:477-487 | button-box mode exactly for the button type code, static exactly for the reference type code, dynamic otherwise |
| Ndi.CommandInterpreter.constructor | Source/igstkPolarisTracker.cxx:56-67 | a new interpreter has sent nothing, taken no initialisation round and holds no error |
| Ndi.CommandInterpreter.Send | Source/igstkPolarisTracker.cxx:433-440 | the command is recorded after those sent before, and the error is the one the script gives for it |
| Ndi.CommandInterpreter.QueryHandles | Source/igstkPolarisTracker.cxx:429-431 | records the PHSR query and answers from the script; a query for uninitialised handles takes the next round, while rounds remain |
| Ndi.RoundsUsed | Source/igstkPolarisTracker.cxx:443-461 | the initialisation loop never consumes more answers than the script holds |
| Ndi.RoundsUsedStopsAtFirstEmpty | Source/igstkPolarisTracker.cxx:443-461 | the initialisation loop consumes every answer up to and including the first empty one, or all of them when none is empty |
| Ndi.EnableCommands | Source/igstkPolarisTracker.cxx:463-494 | two commands per initialised handle, the information query and the enable |
| Ndi.FreeCommands | Source/igstkPolarisTracker.cxx:433-440 | one PHF per stale handle, in order |
| Ndi.EveryRoundStarts | Source/igstkPolarisTracker.cxx:443-461 | a refused PINIT ends only its own round: every later round before the first empty answer still sends its first PINIT |
| Ndi.RoundStopsAtFirstRefusal | Source/igstkPolarisTracker.cxx:450-459 | a round sends PINIT for its handles in order, every one before the last was accepted, and it stops early only at a refusal |
| Ndi.LocationCommands | Source/igstkPolarisTracker.cxx:501-507 | one location query per handle, in order |
| Ndi.DisableCommands | Source/igstkPolarisTracker.cxx:547-554 | one PDIS per enabled handle, in order |
| Ndi.PortLetterRoundTrip | Source/igstkPolarisTracker.cxx:380-381 | the letter by which passive port t is requested decodes back to t |
| Ndi.DigitsDecode | Source/igstkPolarisTracker.cxx:523-526 | two digits d10 d11 decode to port 10·d10 + d11 − 1, with either port naming |
| Ndi.DecodePort | Source/igstkPolarisTracker.cxx:515-526 | the decoded port fits in 32 bits; a letter names a passive port, 3 or above; two digits "00" give 2^32 − 1 and any other two digits a port below 99 |
| Ndi.EmptyTable | Source/igstkPolarisTracker.cxx:423-427 | every port has handle 0 and is not enabled |
| Ndi.LastLocatedAt | Source/igstkPolarisTracker.cxx:501-531 | a handle found for port p was described by the device and its location decodes to p |
| Ndi.TableAfterAt | Source/igstkPolarisTracker.cxx:496-537 | after the location loop each port holds the last described handle located there, with that handle's enabled bit; a port no handle names holds 0 and is disabled |
| Ndi.TableAfter | Source/igstkPolarisTracker.cxx:496-537 | the location loop keeps one handle and one enabled flag per port |
| Ndi.Padded | Source/igstkPolarisTracker.cxx:371-375 | the SROM image is exactly 1024 bytes: the file's bytes, then zeros |
| Ndi.HexRoundTrip | Source/igstkPolarisTracker.cxx:401-404 | decoding the hex text of a byte string gives the bytes back |
| Ndi.HexEncode | Source/igstkPolarisTracker.cxx:401-404 | the hex text of a byte string has two digits per byte |
| Ndi.HexByteRoundTrip | Source/igstkPolarisTracker.cxx:401-404 | the two hex digits of a byte decode back to that byte |
| Ndi.SromWrites | Source/igstkPolarisTracker.cxx:396-405 | sixteen writes, the k-th at address 64·k carrying the hex text of bytes 64·k up to 64·k + 64 |
| Ndi.WritesCarryTheImage | Source/igstkPolarisTracker.cxx:396-405 | each write is at its chunk's address, carries 128 hex digits and decodes to exactly that 64-byte slice of the padded image |
| Ndi.ReportableNeedsEachFlag | Source/igstkPolarisTracker.cxx:199-222 | a port is reported exactly when TOOL_IN_PORT, INITIALIZED and ENABLED are all set, the tool is not absent and not out of volume |
| Ndi.ResetRecordNotIdentityAsWritten | Source/igstkPolarisTracker.cxx:243-254 | as written, the reset record and a null quaternion both give a rotation that turns (0,1,0) into (0,−1,0) |
| Ndi.ResetRecordRotationAsWritten | Source/igstkPolarisTracker.cxx:243-254 | as written, the reset record and the all-zero record both give the half turn about x |
| Ndi.HalfTurnAboutXFlipsY | Source/igstkPolarisTracker.cxx:243-254 | the half turn about x sends the y axis to its opposite, so it is not the identity |
| Ndi.BufferRotation | Source/igstkPolarisTracker.cxx:236-255 | the rotation as intended: a near-zero quaternion becomes the identity; otherwise the record's first value, the scalar part, becomes w and the next three become x, y, z; the squared norm is kept |
| Ndi.BufferRotationAsWritten | Source/igstkPolarisTracker.cxx:243-254 | as written, a near-zero quaternion becomes the half turn about x, and otherwise the record's scalar part lands in x; the squared norm is kept |
| Ndi.BufferRotationReordersAsWritten | Source/igstkPolarisTracker.cxx:250-254 | as written, the rotation of a record that is not near zero agrees with the intended one only when its four quaternion values are all equal |
| Ndi.BufferTransform | Source/igstkPolarisTracker.cxx:236-268 | a reported transform has the record's error and translation, the intended rotation, and is valid for 100 ms from now |
| Ndi.ResetRecordIsIdentity | Source/igstkPolarisTracker.cxx:287-298 | the record the buffer is reset to gives the identity rotation, which moves no vector |
| Ndi.CountTrue | Source/igstkPolarisTracker.cxx:130-142 | the count of enabled ports is at most the number of ports |
| Ndi.CountIsEnabledPorts | Source/igstkPolarisTracker.cxx:130-142 | the number of tools counted equals the size of the set of enabled ports |
| NdiTracking.CheckError | Source/igstkPolarisTracker.cxx:56-67 | FAILURE exactly when the interpreter's error code is nonzero |
| NdiTracking.FreeStaleHandles | Source/igstkPolarisTracker.cxx:429-440 | one stale-handle query, then one PHF per stale handle, a refused one not stopping the rest |
| NdiTracking.InitializeRound | Source/igstkPolarisTracker.cxx:450-459 | sends the PINITs of one round, up to and including the first refusal |
| NdiTracking.InitializeOnce | Source/igstkPolarisTracker.cxx:443-461 | one query and one round; reports whether the query returned any handle |
| NdiTracking.InitializeHandles | Source/igstkPolarisTracker.cxx:443-461 | repeats query and round while the query returns handles; sends exactly the loop's command sequence and consumes the answers it used |
| NdiTracking.EnableInitializedHandles | Source/igstkPolarisTracker.cxx:463-494 | one query, then PHINF and PENA in the tool's mode for every unenabled handle |
| NdiTracking.ReadPortLocation | Source/igstkPolarisTracker.cxx:501-536 | one location query; a described handle is stored at its port, with its enabled bit, when the port exists |
| NdiTracking.ReadPortLocations | Source/igstkPolarisTracker.cxx:496-537 | one query for all handles, one location query each, and the tables become the location loop's tables |
| NdiTracking.ResetPortTables | Source/igstkPolarisTracker.cxx:422-427 | every port gets handle 0 and is disabled |
| NdiTracking.PrepareHandles | Source/igstkPolarisTracker.cxx:429-494 | sends the free phase, the initialisation loop and the enable phase, in that order |
| NdiTracking.EnableToolPorts | Source/igstkPolarisTracker.cxx:420-538 | sends the whole command sequence of the four phases, and leaves the port tables as the location loop computes them from empty tables |
| NdiTracking.DisableToolPorts | Source/igstkPolarisTracker.cxx:541-561 | one PDIS per enabled handle, then every port disabled |
| NdiTracking.ThreadedUpdateStatus | Source/igstkPolarisTracker.cxx:277-344 | sends TX and returns its check; on failure every port keeps the reset record; on success a port without a handle has the reset record, not absent, status 0, and any other port has exactly the values the device reported |
| NdiTracking.UpdateStatus | Source/igstkPolarisTracker.cxx:194-273 | a port gets a transform exactly when it is reportable; that transform has the buffer's translation and error, the buffer's rotation read in the intended order (`BufferRotation`, the corrected half of the quaternion-order finding) with the near-zero substitution, and a 100 ms validity from now |
| NdiTracking.CountEnabled | Source/igstkPolarisTracker.cxx:130-142 | the number of enabled ports |
| PolarisTracking.AttachGuardAsWrittenAdmitsOnePastTheEnd | Source/igstkPolarisTracker.cxx:347-355 | the guard as written admits exactly one port the intended guard refuses: port 12, one past the array |
| PolarisTracking.EnabledWriteEscapesAsWritten | Source/igstkPolarisTracker.cxx:518-536 | a location "00" or letter "Z" gives an index past the port array, where the enabled flag is written as written; the intended loop leaves the tables unchanged |
| PolarisTracking.LoadCommands | Source/igstkPolarisTracker.cxx:358-408 | nothing is sent when the file cannot be opened; otherwise PHRQ for the port's identifier comes first |
| PolarisTracking.NoNamesNoClears | Source/igstkPolarisTracker.cxx:148-156 | with no SROM file name attached, deactivation frees no handle |
| PolarisTracking.LoadsOnlyRequestAndWrite | Source/igstkPolarisTracker.cxx:117-124 | the SROM phase of activation sends only PHRQ and PVWR |
| PolarisTracking.WriteVirtualSROM | Source/igstkPolarisTracker.cxx:396-405 | sends exactly the sixteen chunk writes of the image |
| PolarisTracking.PolarisTracker.constructor | Source/igstkPolarisTracker.cxx:34-47 | every port starts disabled, with handle 0 and no SROM file; no tools |
| PolarisTracking.PolarisTracker.AttachSROMFileNameToPort | Source/igstkPolarisTracker.cxx:347-355 | stores the name for a passive port that exists and changes nothing for any other port |
| PolarisTracking.PolarisTracker.LoadVirtualSROM | Source/igstkPolarisTracker.cxx:358-408 | sends exactly the load commands; succeeds exactly when the file opens and PHRQ is accepted |
| PolarisTracking.PolarisTracker.ClearVirtualSROM | Source/igstkPolarisTracker.cxx:411-417 | frees the port's handle, then sets that port's handle to 0 and disables it; other ports are unchanged |
| PolarisTracking.PolarisTracker.LoadAttachedSROMFiles | Source/igstkPolarisTracker.cxx:117-124 | loads the SROM of every port with a file name, in port order |
| PolarisTracking.PolarisTracker.InternalActivateTools | Source/igstkPolarisTracker.cxx:113-145 | SROM loads, then the port-enabling commands; the tables are the location loop's; the number of tools is the number of enabled ports; SUCCESS |
| PolarisTracking.PolarisTracker.ClearAttachedSROMFiles | Source/igstkPolarisTracker.cxx:150-156 | frees and empties every port with a file name, in port order; other ports are unchanged |
| PolarisTracking.ClearCommands | Source/igstkPolarisTracker.cxx:150-156 | at most one PHF per port: one for each port that has an SROM file name |
| PolarisTracking.PolarisTracker.InternalDeactivateTools | Source/igstkPolarisTracker.cxx:148-161 | clears the SROM ports, disables every enabled handle, leaves every port disabled; SUCCESS |
| PolarisTracking.PolarisTracker.InternalThreadedUpdateStatus | Source/igstkPolarisTracker.cxx:277-344 | as NdiTracking.ThreadedUpdateStatus, over the tracker's twelve ports |
| PolarisTracking.PolarisTracker.InternalUpdateStatus | Source/igstkPolarisTracker.cxx:194-273 | as NdiTracking.UpdateStatus, over the tracker's twelve ports |
| AuroraTracking.EnabledWriteEscapesAsWritten | Source/igstkAuroraTracker.cxx:425-435 | a location "00" decodes to 2^32 − 1, past any port array, where the enabled flag is written as written; the intended loop leaves the tables unchanged |
| AuroraTracking.AuroraTracker.constructor | Source/igstkAuroraTracker.cxx:31-44 | every port starts disabled with handle 0; no tools |
| AuroraTracking.AuroraTracker.InternalActivateTools | Source/igstkAuroraTracker.cxx:109-132 | the port-enabling commands with two-digit locations only; the number of tools is the number of enabled ports; SUCCESS |
| AuroraTracking.AuroraTracker.InternalDeactivateTools | Source/igstkAuroraTracker.cxx:135-140 | one PDIS per enabled handle, every port disabled, handles unchanged; SUCCESS |
| AuroraTracking.AuroraTracker.InternalThreadedUpdateStatus | Source/igstkAuroraTracker.cxx:257-324 | sends TX and returns its check; on failure the reset buffer stays; on success every port with a handle has what the device reported |
| AuroraTracking.AuroraTracker.InternalUpdateStatus | Source/igstkAuroraTracker.cxx:172-253 | same three-flag, absent and out-of-volume filter, intended quaternion order, near-zero substitution and 100 ms validity as the Polaris |
| TrackerControllerTable.RowAgrees | Examples/ApplicationsCommon/TrackerConfiguration/igstkTrackerController.cxx:81-932 | row k declared for a state is for input k, and gives the next state and action the transition function gives |
| TrackerControllerTable.EveryInputListed | Examples/ApplicationsCommon/TrackerConfiguration/igstkTrackerController.cxx:63-76 | the list of inputs holds all fourteen inputs |
| TrackerControllerTable.TableIsTransition | Examples/ApplicationsCommon/TrackerConfiguration/igstkTrackerController.cxx:81-932 | each state's declared rows number fourteen, one per input in order, and each agrees with the transition function: the table is total |
| TrackerControllerTable.Transition | Examples/ApplicationsCommon/TrackerConfiguration/igstkTrackerController.cxx:81-932 | an invalid request keeps the state, except while initialising, which falls back to Idle; Tracking is entered only by a successful start and left only through a stop |
| TrackerControllerTable.IdleRowsAgree | Examples/ApplicationsCommon/TrackerConfiguration/igstkTrackerController.cxx:81-151 | the rows declared for Idle agree with the transition function |
| TrackerControllerTable.AttemptingToInitializeRowsAgree | Examples/ApplicationsCommon/TrackerConfiguration/igstkTrackerController.cxx:152-222 | the rows for AttemptingToInitialize agree with the transition function |
| TrackerControllerTable.AttemptingToInitializePolarisVicraRowsAgree | Examples/ApplicationsCommon/TrackerConfiguration/igstkTrackerController.cxx:223-293 | the rows for the Vicra attempt agree with the transition function |
| TrackerControllerTable.AttemptingToInitializePolarisHybridRowsAgree | Examples/ApplicationsCommon/TrackerConfiguration/igstkTrackerController.cxx:294-364 | the rows for the Hybrid attempt agree with the transition function |
| TrackerControllerTable.AttemptingToInitializeAuroraRowsAgree | Examples/ApplicationsCommon/TrackerConfiguration/igstkTrackerController.cxx:365-435 | the rows for the Aurora attempt agree with the transition function |
| TrackerControllerTable.AttemptingToInitializeMicronRowsAgree | Examples/ApplicationsCommon/TrackerConfiguration/igstkTrackerController.cxx:436-506 | the rows for the Micron attempt agree with the transition function |
| TrackerControllerTable.AttemptingToInitializeMedSafeRowsAgree | Examples/ApplicationsCommon/TrackerConfiguration/igstkTrackerController.cxx:507-577 | the rows for the MedSafe attempt agree with the transition function |
| TrackerControllerTable.InitializedRowsAgree | Examples/ApplicationsCommon/TrackerConfiguration/igstkTrackerController.cxx:578-648 | the rows for Initialized agree with the transition function |
| TrackerControllerTable.AttemptingToStartTrackingRowsAgree | Examples/ApplicationsCommon/TrackerConfiguration/igstkTrackerController.cxx:649-719 | the rows for AttemptingToStartTracking agree with the transition function |
| TrackerControllerTable.TrackingRowsAgree | Examples/ApplicationsCommon/TrackerConfiguration/igstkTrackerController.cxx:720-790 | the rows for Tracking agree with the transition function |
| TrackerControllerTable.AttemptingToStopTrackingRowsAgree | Examples/ApplicationsCommon/TrackerConfiguration/igstkTrackerController.cxx:791-863 | the rows for AttemptingToStopTracking agree with the transition function |
| TrackerControllerTable.AttemptingToCloseCommunicationRowsAgree | Examples/ApplicationsCommon/TrackerConfiguration/igstkTrackerController.cxx:864-932 | the rows for AttemptingToCloseCommunication agree with the transition function |
| TrackerControllerTable.FamilyAttemptEdges | Examples/ApplicationsCommon/TrackerConfiguration/igstkTrackerController.cxx:223-577 | in each family attempt state: Succeeded, and only Succeeded, goes to Initialized reporting success; Failed, and only Failed, goes to Idle reporting failure; every other input goes to Idle as an invalid request |
| TrackerControllerTable.AttemptOutcomes | Examples/ApplicationsCommon/TrackerConfiguration/igstkTrackerController.cxx:649-719 | start, stop and close attempts: Succeeded leads to Tracking, Initialized, Idle and Failed to Initialized, Tracking, Initialized; every other input keeps the state and reports an invalid request |
| TrackerControllerTable.StopAndCloseWhenIdle | Examples/ApplicationsCommon/TrackerConfiguration/igstkTrackerController.cxx:116-134 | a stop in Idle or Initialized, and a close in Idle, report success and keep the state |
| TrackerControl.ErrorMessagesIdentifyEvents | Examples/ApplicationsCommon/TrackerConfiguration/igstkTrackerController.cxx:1861-1884 | exactly the seven listed error events have a message, and different events have different messages |
| TrackerControl.Observed | Examples/ApplicationsCommon/TrackerConfiguration/igstkTrackerController.cxx:1888-1903 | a message is recorded exactly when an error event is raised that the table lists, and it is that event's message |
| TrackerControl.ErrorObserver.constructor | Examples/ApplicationsCommon/TrackerConfiguration/igstkTrackerController.cxx:1861-1884 | a new observer has no error and no message |
| TrackerControl.ErrorObserver.Execute | Examples/ApplicationsCommon/TrackerConfiguration/igstkTrackerController.cxx:1888-1903 | a listed event sets the error flag and its message; any other event changes nothing |
| TrackerControl.ErrorObserver.ClearError | Examples/ApplicationsCommon/TrackerConfiguration/igstkTrackerController.cxx:1084 | after clearing, no error is recorded and the message is empty |
| TrackerControl.FamilyInput | Examples/ApplicationsCommon/TrackerConfiguration/igstkTrackerController.cxx:1027-1066 | the family input of a configuration type, if any; Micron only when the Micron build flag is set |
| TrackerControl.MicronNeedsSandbox | Examples/ApplicationsCommon/TrackerConfiguration/igstkTrackerController.cxx:1047-1054 | without the Micron build flag, exactly Micron and unknown configurations have no family input |
| TrackerControl.Attached | Examples/ApplicationsCommon/TrackerConfiguration/igstkTrackerController.cxx:1280-1288 | the tools attached are exactly the configured names that the configuration lists |
| TrackerControl.TransitionWeight | Examples/ApplicationsCommon/TrackerConfiguration/igstkTrackerController.cxx:81-932 | no transition's action pushes an input heavier than the one it consumed, so every drain ends |
| TrackerControl.ActFrame | Examples/ApplicationsCommon/TrackerConfiguration/igstkTrackerController.cxx:1019-1163 | an action keeps the state and the queue and pushes at most one input, lighter than the action; every action but the initialisation dispatch pushes only Succeeded or Failed |
| TrackerControl.StepDecreases | Examples/ApplicationsCommon/TrackerConfiguration/igstkTrackerController.cxx:81-932 | one step of a drain makes the queue strictly lighter |
| TrackerControl.DrainEmptiesQueue | Examples/ApplicationsCommon/TrackerConfiguration/igstkTrackerController.cxx:956 | a drain ends with an empty queue |
| TrackerControl.UnusableConfigurationFails | Examples/ApplicationsCommon/TrackerConfiguration/igstkTrackerController.cxx:1019-1068 | a null configuration, or one of unknown type, leaves the controller in Idle with the message "Null tracker configuration received." or "Unknown tracker configuration type." and an initialisation error event |
| TrackerControl.SerialInitialization | Examples/ApplicationsCommon/TrackerConfiguration/igstkTrackerController.cxx:1167-1306 | a serial family from Idle: when port and tracker open, Initialized with the port open, the configured tools added under their names (a name already present keeps its tool), the reference tool replaced if configured, and a success event; otherwise Idle, port closed, tools unchanged, the port's or tracker's message in an error event |
| TrackerControl.SerialInitializationVerdict | Examples/ApplicationsCommon/TrackerConfiguration/igstkTrackerController.cxx:1237-1306 | the controller reaches Initialized exactly when port and tracker open, otherwise it is back in Idle; the port is open exactly on success |
| TrackerControl.MedSafeInitializationIsSilent | Examples/ApplicationsCommon/TrackerConfiguration/igstkTrackerController.cxx:1607-1611 | a MedSafe configuration leaves the controller in the MedSafe attempt state with an empty queue and no event |
| TrackerControl.StartTrackingOutcome | Examples/ApplicationsCommon/TrackerConfiguration/igstkTrackerController.cxx:1071-1092 | from Initialized: Tracking and a start event when the tracker raises no listed error, else still Initialized with its message in a start error event |
| TrackerControl.ShutdownWhileTrackingLeavesCommunicationOpen | Examples/ApplicationsCommon/TrackerConfiguration/igstkTrackerController.cxx:977-985 | a shutdown while tracking rejects the close as an invalid request and ends in Initialized or Tracking, by the stop's outcome, with the port as it was |
| TrackerControl.CloseWhileStoppingDrains | Examples/ApplicationsCommon/TrackerConfiguration/igstkTrackerController.cxx:841-844 | a close taken while a stop is attempted is an invalid request, and the stop's verdict then decides the state |
| TrackerControl.ShutdownWhenInitialized | Examples/ApplicationsCommon/TrackerConfiguration/igstkTrackerController.cxx:977-985 | from Initialized: the stop succeeds at once; then Idle with the serial port closed when the close succeeds, else Initialized with the tracker's or port's message in a close error event |
| TrackerControl.GetToolAnswers | Examples/ApplicationsCommon/TrackerConfiguration/igstkTrackerController.cxx:1721-1745 | in Initialized a tool request answers with the named tool when present and a tool error otherwise, and clears the requested name |
| TrackerControl.GetToolRejectedUnlessInitialized | Examples/ApplicationsCommon/TrackerConfiguration/igstkTrackerController.cxx:998-1006 | outside Initialized a tool request is an invalid request; the name stays and the tools are unchanged |
| TrackerControl.GetToolsAnswers | Examples/ApplicationsCommon/TrackerConfiguration/igstkTrackerController.cxx:1709-1718 | in Initialized, asking for the tool list reports the whole tool table in one event and changes nothing else |
| TrackerControl.GetReferenceToolAnswers | Examples/ApplicationsCommon/TrackerConfiguration/igstkTrackerController.cxx:1748-1757 | in Initialized, asking for the reference tool reports it, or its absence, in one event and changes nothing else |
| TrackerControl.ToolQueriesRejectedUnlessInitialized | Examples/ApplicationsCommon/TrackerConfiguration/igstkTrackerController.cxx:81-932 | outside Initialized, the tool-list and reference-tool requests are invalid: one error event, the state the table gives, nothing else changed |
| TrackerControl.GetToolInvalidOutsideInitialized | Examples/ApplicationsCommon/TrackerConfiguration/igstkTrackerController.cxx:81-932 | in every state but Initialized the table answers a tool request with the invalid-request report |
| TrackerControl.TrackerController.constructor | Examples/ApplicationsCommon/TrackerConfiguration/igstkTrackerController.cxx:38-938 | a new controller is Idle with an empty queue, no configuration, tracker, tools or reference tool, and no message |
| TrackerControl.TrackerController.ObserveError | Examples/ApplicationsCommon/TrackerConfiguration/igstkTrackerController.cxx:1076-1086 | the observer is consulted, read and cleared: the message returned is the one the table gives for the raised event |
| TrackerControl.TrackerController.Push | Examples/ApplicationsCommon/TrackerConfiguration/igstkTrackerController.cxx:955 | appends one input at the tail of the queue |
| TrackerControl.TrackerController.TrackerInitializeProcessing | Examples/ApplicationsCommon/TrackerConfiguration/igstkTrackerController.cxx:1019-1068 | does exactly what the dispatch function says: a family input for a usable configuration, Failed with its message otherwise |
| TrackerControl.TrackerController.AttachTools | Examples/ApplicationsCommon/TrackerConfiguration/igstkTrackerController.cxx:1280-1301 | the configured tools join the tool table under their names, a name already present keeping its tool |
| TrackerControl.TrackerController.OpenTrackerProcessing | Examples/ApplicationsCommon/TrackerConfiguration/igstkTrackerController.cxx:1247-1303 | opens the tracker; on an error closes the port if asked and pushes Failed; otherwise attaches the tools and pushes Succeeded |
| TrackerControl.TrackerController.SerialInitializeProcessing | Examples/ApplicationsCommon/TrackerConfiguration/igstkTrackerController.cxx:1237-1306 | opens the port, then the tracker, as the serial initialisation function says |
| TrackerControl.TrackerController.MicronInitializeProcessing | Examples/ApplicationsCommon/TrackerConfiguration/igstkTrackerController.cxx:1517-1590 | without the Micron build flag pushes Failed; with it, opens the tracker and attaches the tools |
| TrackerControl.TrackerController.TrackingRequestProcessing | Examples/ApplicationsCommon/TrackerConfiguration/igstkTrackerController.cxx:1095-1116 | pushes Failed with the observer's message when a listed error is raised, Succeeded otherwise |
| TrackerControl.TrackerController.CloseCommunicationProcessing | Examples/ApplicationsCommon/TrackerConfiguration/igstkTrackerController.cxx:1119-1163 | closes the tracker, then a serial port if there is one; Failed with the first message raised, Succeeded otherwise |
| TrackerControl.TrackerController.GetToolProcessing | Examples/ApplicationsCommon/TrackerConfiguration/igstkTrackerController.cxx:1721-1745 | answers with the requested tool or a tool error and clears the requested name |
| TrackerControl.TrackerController.PerformAction | Examples/ApplicationsCommon/TrackerConfiguration/igstkTrackerController.cxx:1709-1858 | every action does exactly what the action function says |
| TrackerControl.TrackerController.ProcessInputs | Examples/ApplicationsCommon/TrackerConfiguration/igstkTrackerController.cxx:956 | leaves the controller as the drain function computes it |
| TrackerControl.TrackerController.RequestInitialize | Examples/ApplicationsCommon/TrackerConfiguration/igstkTrackerController.cxx:947-957 | stores the configuration, pushes TrackerInitialize and drains |
| TrackerControl.TrackerController.RequestStartTracking | Examples/ApplicationsCommon/TrackerConfiguration/igstkTrackerController.cxx:959-966 | pushes StartTracking and drains |
| TrackerControl.TrackerController.RequestStopTracking | Examples/ApplicationsCommon/TrackerConfiguration/igstkTrackerController.cxx:968-975 | pushes StopTracking and drains |
| TrackerControl.TrackerController.RequestShutdown | Examples/ApplicationsCommon/TrackerConfiguration/igstkTrackerController.cxx:977-985 | pushes StopTracking then CloseCommunication, then drains |
| TrackerControl.TrackerController.RequestGetNonReferenceToolList | Examples/ApplicationsCommon/TrackerConfiguration/igstkTrackerController.cxx:988-995 | pushes GetTools and drains; by GetToolsAnswers and ToolQueriesRejectedUnlessInitialized, the tool table is reported in Initialized and the request is invalid elsewhere |
| TrackerControl.TrackerController.RequestGetTool | Examples/ApplicationsCommon/TrackerConfiguration/igstkTrackerController.cxx:998-1006 | stores the requested name, pushes GetTool and drains |
| TrackerControl.TrackerController.RequestGetReferenceTool | Examples/ApplicationsCommon/TrackerConfiguration/igstkTrackerController.cxx:1009-1016 | pushes GetReferenceTool and drains; by GetReferenceToolAnswers and ToolQueriesRejectedUnlessInitialized, the reference tool is reported in Initialized and the request is invalid elsewhere |
| OIGTLinkReader.ReadAcceptance | Examples/ApplicationsCommon/TrackerConfiguration/configurationFileReaders/oigtLinkConfigurationReaders/igstkOIGTLinkTrackerConfigurationFileReader.cxx:207-231 | a Read starts the read action exactly in Initialized, and in the corrected table also in HaveData |
| OIGTLinkReader.Transition | Examples/ApplicationsCommon/TrackerConfiguration/configurationFileReaders/oigtLinkConfigurationReaders/igstkOIGTLinkTrackerConfigurationFileReader.cxx:32-284 | an invalid request keeps the state, except for the Read in HaveData as written; data is had only after a successful read, and kept until a new set or read |
| OIGTLinkReader.GetDataAcceptance | Examples/ApplicationsCommon/TrackerConfiguration/configurationFileReaders/oigtLinkConfigurationReaders/igstkOIGTLinkTrackerConfigurationFileReader.cxx:257-280 | data is handed out exactly in HaveData |
| OIGTLinkReader.AttemptsAwaitVerdict | Examples/ApplicationsCommon/TrackerConfiguration/configurationFileReaders/oigtLinkConfigurationReaders/igstkOIGTLinkTrackerConfigurationFileReader.cxx:57-106 | while an attempt is pending every request keeps the state and is reported invalid, and its verdict leads to a state that awaits no verdict |
| OIGTLinkReader.AttemptMatchesAction | Examples/ApplicationsCommon/TrackerConfiguration/configurationFileReaders/oigtLinkConfigurationReaders/igstkOIGTLinkTrackerConfigurationFileReader.cxx:265-268 | in the corrected table a request enters an attempt state exactly when its action pushes a verdict; the table as written enters AttemptingRead from HaveData with the invalid-request report |
| OIGTLinkReader.ActFrame | Examples/ApplicationsCommon/TrackerConfiguration/configurationFileReaders/oigtLinkConfigurationReaders/igstkOIGTLinkTrackerConfigurationFileReader.cxx:352-490 | no action changes the state or the queue; only the three attempts push, they push Success or Failure, and they always push |
| OIGTLinkReader.StepDecreases | Examples/ApplicationsCommon/TrackerConfiguration/configurationFileReaders/oigtLinkConfigurationReaders/igstkOIGTLinkTrackerConfigurationFileReader.cxx:32-280 | one step of a drain makes the queue strictly lighter, so every drain ends |
| OIGTLinkReader.RejectedRequest | Examples/ApplicationsCommon/TrackerConfiguration/configurationFileReaders/oigtLinkConfigurationReaders/igstkOIGTLinkTrackerConfigurationFileReader.cxx:342-349 | a rejected request adds one invalid-request event and changes nothing else |
| OIGTLinkReader.AttemptRequest | Examples/ApplicationsCommon/TrackerConfiguration/configurationFileReaders/oigtLinkConfigurationReaders/igstkOIGTLinkTrackerConfigurationFileReader.cxx:302-303 | an attempt runs its action and its verdict is the next and last input taken |
| OIGTLinkReader.SetReaderOutcome | Examples/ApplicationsCommon/TrackerConfiguration/configurationFileReaders/oigtLinkConfigurationReaders/igstkOIGTLinkTrackerConfigurationFileReader.cxx:352-366 | a missing reader is refused and the state falls back to FileNameSet or Idle; otherwise the reader is committed, the temporary cleared, and the state becomes Initialized or ReaderSet; nothing else changes |
| OIGTLinkReader.SetFileNameOutcome | Examples/ApplicationsCommon/TrackerConfiguration/configurationFileReaders/oigtLinkConfigurationReaders/igstkOIGTLinkTrackerConfigurationFileReader.cxx:389-403 | an empty name is refused and the state falls back to ReaderSet or Idle; otherwise the name is committed, the temporary cleared, and the state becomes Initialized or FileNameSet |
| OIGTLinkReader.ReadOutcome | Examples/ApplicationsCommon/TrackerConfiguration/configurationFileReaders/oigtLinkConfigurationReaders/igstkOIGTLinkTrackerConfigurationFileReader.cxx:426-490 | a readable file gives HaveData with both parts of the configuration; otherwise back to Initialized with the reason (missing or directory, parser exception, no tracker data, no OpenIGTLink data), the tracker part kept when it was parsed |
| OIGTLinkReader.ReadFile | Examples/ApplicationsCommon/TrackerConfiguration/configurationFileReaders/oigtLinkConfigurationReaders/igstkOIGTLinkTrackerConfigurationFileReader.cxx:426-490 | reading keeps the state and queue and pushes Success or Failure whenever an XML reader is set or the file is missing; Success exactly when the file exists and both parts parse, and then the tracker configuration is stored |
| OIGTLinkReader.GetDataOutcome | Examples/ApplicationsCommon/TrackerConfiguration/configurationFileReaders/oigtLinkConfigurationReaders/igstkOIGTLinkTrackerConfigurationFileReader.cxx:516-526 | data is handed out only in HaveData, and there the tracker configuration is present; elsewhere the request is rejected and nothing changes |
| OIGTLinkReader.RequestKeepsConsistent | Examples/ApplicationsCommon/TrackerConfiguration/configurationFileReaders/oigtLinkConfigurationReaders/igstkOIGTLinkTrackerConfigurationFileReader.cxx:32-280 | with the corrected table every request leaves the reader consistent: nothing queued, no verdict awaited, and what the state promises is committed |
| OIGTLinkReader.ReadAfterDataStuckAsWritten | Examples/ApplicationsCommon/TrackerConfiguration/configurationFileReaders/oigtLinkConfigurationReaders/igstkOIGTLinkTrackerConfigurationFileReader.cxx:265-268 | as written, a Read in HaveData enters AttemptingRead with nothing queued, and the reader is no longer consistent |
| OIGTLinkReader.StuckForeverAsWritten | Examples/ApplicationsCommon/TrackerConfiguration/configurationFileReaders/oigtLinkConfigurationReaders/igstkOIGTLinkTrackerConfigurationFileReader.cxx:232-256 | as written, from AttemptingRead with nothing queued every later request is rejected and the state never changes |
| OIGTLinkReader.ConfigurationFileReader.constructor | Examples/ApplicationsCommon/TrackerConfiguration/configurationFileReaders/oigtLinkConfigurationReaders/igstkOIGTLinkTrackerConfigurationFileReader.cxx:8-287 | a new reader is Idle with nothing committed, and consistent |
| OIGTLinkReader.ConfigurationFileReader.Push | Examples/ApplicationsCommon/TrackerConfiguration/configurationFileReaders/oigtLinkConfigurationReaders/igstkOIGTLinkTrackerConfigurationFileReader.cxx:302 | appends one input at the tail of the queue |
| OIGTLinkReader.ConfigurationFileReader.SetReaderProcessing | Examples/ApplicationsCommon/TrackerConfiguration/configurationFileReaders/oigtLinkConfigurationReaders/igstkOIGTLinkTrackerConfigurationFileReader.cxx:352-366 | does what the action function says: Failure for a missing reader, otherwise commit, clear and Success |
| OIGTLinkReader.ConfigurationFileReader.SetFileNameProcessing | Examples/ApplicationsCommon/TrackerConfiguration/configurationFileReaders/oigtLinkConfigurationReaders/igstkOIGTLinkTrackerConfigurationFileReader.cxx:389-403 | Failure for an empty name, otherwise commit, clear and Success |
| OIGTLinkReader.ConfigurationFileReader.ReadProcessing | Examples/ApplicationsCommon/TrackerConfiguration/configurationFileReaders/oigtLinkConfigurationReaders/igstkOIGTLinkTrackerConfigurationFileReader.cxx:426-490 | reads the file as the read function says |
| OIGTLinkReader.ConfigurationFileReader.PerformAction | Examples/ApplicationsCommon/TrackerConfiguration/configurationFileReaders/oigtLinkConfigurationReaders/igstkOIGTLinkTrackerConfigurationFileReader.cxx:342-526 | every action does exactly what the action function says |
| OIGTLinkReader.ConfigurationFileReader.ProcessInputs | Examples/ApplicationsCommon/TrackerConfiguration/configurationFileReaders/oigtLinkConfigurationReaders/igstkOIGTLinkTrackerConfigurationFileReader.cxx:303 | leaves the reader as the drain function computes it with the corrected table |
| OIGTLinkReader.ConfigurationFileReader.RequestSetReader | Examples/ApplicationsCommon/TrackerConfiguration/configurationFileReaders/oigtLinkConfigurationReaders/igstkOIGTLinkTrackerConfigurationFileReader.cxx:294-305 | stores the reader, pushes SetReader and drains; the reader stays consistent |
| OIGTLinkReader.ConfigurationFileReader.RequestSetFileName | Examples/ApplicationsCommon/TrackerConfiguration/configurationFileReaders/oigtLinkConfigurationReaders/igstkOIGTLinkTrackerConfigurationFileReader.cxx:308-317 | stores the name, pushes SetFileName and drains; the reader stays consistent |
| OIGTLinkReader.ConfigurationFileReader.RequestRead | Examples/ApplicationsCommon/TrackerConfiguration/configurationFileReaders/oigtLinkConfigurationReaders/igstkOIGTLinkTrackerConfigurationFileReader.cxx:320-328 | pushes Read and drains; the reader stays consistent |
| OIGTLinkReader.ConfigurationFileReader.RequestGetData | Examples/ApplicationsCommon/TrackerConfiguration/configurationFileReaders/oigtLinkConfigurationReaders/igstkOIGTLinkTrackerConfigurationFileReader.cxx:331-339 | pushes GetData and drains; the reader stays consistent |
| ReslicerPlane.PlaneRequestsNeedBoundingBox | Source/igstkReslicerPlaneSpatialObject.cxx:157-165 | the plane computation and the two reports have a row exactly in the state where the bounding box is set |
| ReslicerPlane.Transition | Source/igstkReslicerPlaneSpatialObject.cxx:91-179 | an invalid request keeps the state; only a transform request enters the wait for the tool, and while waiting every input but the tool's answer has no row |
| ReslicerPlane.OrientationAcceptance | Source/igstkReslicerPlaneSpatialObject.cxx:368-416 | Orthogonal accepts exactly axial, sagittal and coronal; Oblique exactly the three axis-normal orientations; OffOrthogonal exactly the three off orientations; every orientation suits exactly one mode |
| ReslicerPlane.OrientationAccepted | Source/igstkReslicerPlaneSpatialObject.cxx:368-416 | the orthogonal mode accepts exactly axial, sagittal and coronal |
| ReslicerPlane.OrientationInput | Source/igstkReslicerPlaneSpatialObject.cxx:368-416 | the valid-orientation input is pushed exactly when the orientation suits the mode in force |
| ReslicerPlane.ToolInput | Source/igstkReslicerPlaneSpatialObject.cxx:545-552 | the valid-tool input is pushed exactly when a tool is given |
| ReslicerPlane.MinMax | Source/igstkReslicerPlaneSpatialObject.cxx:499-507 | the two values of a pair put in order are ordered, are the same two values, and ordering again changes nothing |
| ReslicerPlane.NormalisedBounds | Source/igstkReslicerPlaneSpatialObject.cxx:499-507 | after the swap loop each pair of bounds is ordered, holds the same two values as before, and a second pass changes nothing |
| ReslicerPlane.CentreOfNormalised | Source/igstkReslicerPlaneSpatialObject.cxx:509-516 | ordering the bounds does not move the centre, and the centre lies between each ordered pair |
| ReslicerPlane.CentreIsValidCursor | Source/igstkReslicerPlaneSpatialObject.cxx:288-317 | the centre of an ordered image is an accepted cursor for each orthogonal orientation, and for no other |
| ReslicerPlane.TransitionWeight | Source/igstkReslicerPlaneSpatialObject.cxx:91-179 | no transition's action is heavier than the input it consumes |
| ReslicerPlane.ActFrame | Source/igstkReslicerPlaneSpatialObject.cxx:199-621 | no action changes the state or the queue, and each pushes at most one input, lighter than the action |
| ReslicerPlane.Run | Source/igstkReslicerPlaneSpatialObject.cxx:637-667 | running an action makes the queue lighter than it was plus the action's weight, so every drain ends, the nested one included |
| ReslicerPlane.Step | Source/igstkReslicerPlaneSpatialObject.cxx:91-179 | one step of a drain makes the queue strictly lighter |
| ReslicerPlane.Drain | Source/igstkReslicerPlaneSpatialObject.cxx:91-179 | a drain ends with an empty queue |
| ReslicerPlane.DrainFirstStep | Source/igstkReslicerPlaneSpatialObject.cxx:91-179 | draining a non-empty queue is draining what its first step leaves |
| ReslicerPlane.ComputePlane | Source/igstkReslicerPlaneSpatialObject.cxx:637-667 | computing the plane changes neither the state, the queue, the events, the tool nor its last translation |
| ReslicerPlane.ReslicingModeOutcome | Source/igstkReslicerPlaneSpatialObject.cxx:192-204 | a mode request is never refused: from the initial state the mode is set and the mode-set state reached; once the box is set the mode is replaced; in between the input has no row and only the pending mode changes |
| ReslicerPlane.OrientationOutcome | Source/igstkReslicerPlaneSpatialObject.cxx:359-419 | in the initial state an orientation is rejected with an invalid-request event; otherwise it is set exactly when it suits the mode in force, moving the mode-set state on to the orientation-set state |
| ReslicerPlane.BoundingBoxOutcome | Source/igstkReslicerPlaneSpatialObject.cxx:430-518 | a missing provider is refused and the state stays; otherwise the provider is kept and the box state reached, and when it reports a box the bounds are stored in order with the tool position and plane centre at its middle |
| ReslicerPlane.BoundingBoxAttemptStep | Source/igstkReslicerPlaneSpatialObject.cxx:444-461 | the attempt pushes the invalid-provider input exactly when no provider is given |
| ReslicerPlane.BoundingBoxVerdictStep | Source/igstkReslicerPlaneSpatialObject.cxx:128-133 | a valid provider is stored in the box state; an invalid one sends the machine back to the orientation-set state |
| ReslicerPlane.CursorOutcome | Source/igstkReslicerPlaneSpatialObject.cxx:264-348 | once the box is set, a cursor inside the image along the cut axis becomes the cursor and the tool position and is flagged; any other cursor changes nothing |
| ReslicerPlane.CursorAttemptStep | Source/igstkReslicerPlaneSpatialObject.cxx:280-329 | the attempt pushes the valid-cursor input exactly when the cursor lies in the image along the cut axis |
| ReslicerPlane.CursorInBounds | Source/igstkReslicerPlaneSpatialObject.cxx:280-329 | only the three orthogonal orientations can accept a cursor |
| ReslicerPlane.CursorVerdictStep | Source/igstkReslicerPlaneSpatialObject.cxx:171-176 | either verdict returns to the box state; only a valid one stores the cursor |
| ReslicerPlane.ComputeStep | Source/igstkReslicerPlaneSpatialObject.cxx:637-667 | without a tool the plane is computed at once; with one, after the nested request for the tool's transform |
| ReslicerPlane.GetToolTransformStep | Source/igstkReslicerPlaneSpatialObject.cxx:166-167 | asking a tool for its transform waits in the attempting state and, when it answers, queues the answer |
| ReslicerPlane.ReceiveToolTransformStep | Source/igstkReslicerPlaneSpatialObject.cxx:178-179 | the answer becomes the tool's translation and the box state is reached again |
| ReslicerPlane.OrthogonalPlaneWithoutTool | Source/igstkReslicerPlaneSpatialObject.cxx:737-799 | without a tool the normal is the cut axis, the centre is the middle of the image along the other two axes and, along the cut axis, the flagged cursor, which also moves the tool position; the flag is cleared and nothing else changes |
| ReslicerPlane.OrthogonalPlaneSettles | Source/igstkReslicerPlaneSpatialObject.cxx:751-756 | without a tool a flagged cursor is used once: computing again leaves the plane where it is |
| ReslicerPlane.OrthogonalPlaneWithTool | Source/igstkReslicerPlaneSpatialObject.cxx:677-736 | with a tool the plane passes through its translation along the cut axis and through the middle of the image along the others, and the tool position is that translation |
| ReslicerPlane.OrthogonalPlane | Source/igstkReslicerPlaneSpatialObject.cxx:677-799 | the normal is the cut axis and the centre is the middle of the image along the other two; with a tool the tool position is the tool; without one a pending cursor is consumed; any other orientation leaves the plane as it was |
| ReslicerPlane.TiltedPlaneFollowsTool | Source/igstkReslicerPlaneSpatialObject.cxx:803-970 | oblique and off-orthogonal planes are centred on the tool's translation, which becomes the tool position; an off-orthogonal plane keeps the middle of the image along the axis it is named after |
| ReslicerPlane.ComputeWithoutToolOutcome | Source/igstkReslicerPlaneSpatialObject.cxx:637-667 | without a tool a plane request computes the plane and nothing else, and in orthogonal mode a second request changes nothing more |
| ReslicerPlane.ComputeWithToolOutcome | Source/igstkReslicerPlaneSpatialObject.cxx:637-667 | with a tool a plane request first fetches its transform: when the tool answers, the plane is computed from the fresh translation in the box state; otherwise from the last one, with the machine left waiting for the answer |
| ReslicerPlane.DroppedRequest | Source/igstkReslicerPlaneSpatialObject.cxx:91-179 | an input without a row changes nothing at all; in particular while a tool transform is awaited every request is ignored |
| ReslicerPlane.ToolOutcome | Source/igstkReslicerPlaneSpatialObject.cxx:536-567 | once the box is set, a missing tool is refused and changes nothing; otherwise the tool is kept and marked as set |
| ReslicerPlane.ToolPositionReport | Source/igstkReslicerPlaneSpatialObject.cxx:213-245 | once the box is set, a tool-position request raises one event with the tool position and changes nothing else |
| ReslicerPlane.PlaneParametersReport | Source/igstkReslicerPlaneSpatialObject.cxx:224-262 | once the box is set, a plane-parameters request raises the centre event then the normal event and changes nothing else |
| ReslicerPlane.UpdateToolTransformOutcome | Source/igstkReslicerPlaneSpatialObject.cxx:577-621 | with a tool that answers, the translation is stored and the box state reached again; otherwise the machine waits in the attempting state |
| ReslicerPlane.ReslicerPlaneSpatialObject.constructor | Source/igstkReslicerPlaneSpatialObject.cxx:33-58 | orthogonal axial reslicing in the initial state, with no image and no tool, the cursor and tool position at the origin and no flagged cursor |
| ReslicerPlane.ReslicerPlaneSpatialObject.Push | Source/igstkReslicerPlaneSpatialObject.cxx:200 | appends one input at the tail of the queue |
| ReslicerPlane.ReslicerPlaneSpatialObject.LoadBounds | Source/igstkReslicerPlaneSpatialObject.cxx:492-507 | the swap loop leaves the bounds array holding the box with each pair in order |
| ReslicerPlane.ReslicerPlaneSpatialObject.SetBoundingBoxProviderSpatialObjectProcessing | Source/igstkReslicerPlaneSpatialObject.cxx:463-518 | stores the provider and, when it reports a box, the ordered bounds with the tool position and plane centre at its middle |
| ReslicerPlane.ReslicerPlaneSpatialObject.AttemptSetBoundingBoxProviderSpatialObjectProcessing | Source/igstkReslicerPlaneSpatialObject.cxx:444-461 | pushes the valid or invalid provider input as the action function says |
| ReslicerPlane.ReslicerPlaneSpatialObject.AttemptSetCursorPositionProcessing | Source/igstkReslicerPlaneSpatialObject.cxx:280-329 | pushes the valid or invalid cursor input as the bounds check says |
| ReslicerPlane.ReslicerPlaneSpatialObject.ComputeReslicePlaneProcessing | Source/igstkReslicerPlaneSpatialObject.cxx:637-667 | with a tool, makes the nested transform request first, then computes the plane, as the run function says |
| ReslicerPlane.ReslicerPlaneSpatialObject.RequestGetToolTransformProcessing | Source/igstkReslicerPlaneSpatialObject.cxx:590-608 | with a tool that answers, stores the answer and queues it; otherwise changes nothing |
| ReslicerPlane.ReslicerPlaneSpatialObject.SetReslicingModeProcessing | Source/igstkReslicerPlaneSpatialObject.cxx:350-357 | the pending mode becomes the mode |
| ReslicerPlane.ReslicerPlaneSpatialObject.SetOrientationTypeProcessing | Source/igstkReslicerPlaneSpatialObject.cxx:421-428 | the pending orientation becomes the orientation |
| ReslicerPlane.ReslicerPlaneSpatialObject.SetToolSpatialObjectProcessing | Source/igstkReslicerPlaneSpatialObject.cxx:557-567 | the pending tool becomes the tool and is marked as set |
| ReslicerPlane.ReslicerPlaneSpatialObject.SetCursorPositionProcessing | Source/igstkReslicerPlaneSpatialObject.cxx:331-348 | the pending cursor becomes the cursor and the tool position, and is flagged |
| ReslicerPlane.ReslicerPlaneSpatialObject.ReceiveToolTransformProcessing | Source/igstkReslicerPlaneSpatialObject.cxx:612-621 | the pending translation becomes the tool's translation |
| ReslicerPlane.ReslicerPlaneSpatialObject.ReportInvalidRequestProcessing | Source/igstkReslicerPlaneSpatialObject.cxx:991-999 | adds one invalid-request event |
| ReslicerPlane.ReslicerPlaneSpatialObject.ReportToolPositionProcessing | Source/igstkReslicerPlaneSpatialObject.cxx:235-245 | adds one event with the tool position |
| ReslicerPlane.ReslicerPlaneSpatialObject.ReportReslicingPlaneParametersProcessing | Source/igstkReslicerPlaneSpatialObject.cxx:247-262 | adds the plane-centre event, then the plane-normal event |
| ReslicerPlane.ReslicerPlaneSpatialObject.PerformAction | Source/igstkReslicerPlaneSpatialObject.cxx:199-999 | every action does exactly what the run function says |
| ReslicerPlane.ReslicerPlaneSpatialObject.ProcessInputs | Source/igstkReslicerPlaneSpatialObject.cxx:203 | leaves the object as the drain function computes it |
| ReslicerPlane.ReslicerPlaneSpatialObject.ProcessNextInput | Source/igstkReslicerPlaneSpatialObject.cxx:91-179 | one turn of the loop, as the step function says |
| ReslicerPlane.ReslicerPlaneSpatialObject.RequestSetReslicingMode | Source/igstkReslicerPlaneSpatialObject.cxx:192-204 | stores the mode, pushes the valid-mode input and drains |
| ReslicerPlane.ReslicerPlaneSpatialObject.RequestSetOrientationType | Source/igstkReslicerPlaneSpatialObject.cxx:359-419 | stores the orientation, pushes the input the mode check gives and drains |
| ReslicerPlane.ReslicerPlaneSpatialObject.RequestSetBoundingBoxProviderSpatialObject | Source/igstkReslicerPlaneSpatialObject.cxx:430-442 | stores the provider, pushes the set-provider input and drains |
| ReslicerPlane.ReslicerPlaneSpatialObject.RequestSetToolSpatialObject | Source/igstkReslicerPlaneSpatialObject.cxx:536-555 | stores the tool, pushes the valid or invalid tool input and drains |
| ReslicerPlane.ReslicerPlaneSpatialObject.RequestSetCursorPosition | Source/igstkReslicerPlaneSpatialObject.cxx:264-278 | stores the cursor, pushes the set-cursor input and drains |
| ReslicerPlane.ReslicerPlaneSpatialObject.RequestComputeReslicingPlane | Source/igstkReslicerPlaneSpatialObject.cxx:624-634 | pushes the compute input and drains |
| ReslicerPlane.ReslicerPlaneSpatialObject.RequestUpdateToolTransformWRTImageCoordinateSystem | Source/igstkReslicerPlaneSpatialObject.cxx:577-587 | pushes the get-transform input and drains |
| ReslicerPlane.ReslicerPlaneSpatialObject.RequestGetToolPosition | Source/igstkReslicerPlaneSpatialObject.cxx:213-222 | pushes the tool-position input and drains |
| ReslicerPlane.ReslicerPlaneSpatialObject.RequestGetReslicingPlaneParameters | Source/igstkReslicerPlaneSpatialObject.cxx:224-233 | pushes the plane-parameters input and drains |
| PolarisConfiguration.VicraAcceptance | Examples/ApplicationsCommon/TrackerConfiguration/igstkPolarisTrackerConfiguration.cxx:46-78 | the Vicra takes exactly the wireless tools that name an SROM file, and refuses every other kind of tool as incompatible |
| PolarisConfiguration.HybridAcceptance | Examples/ApplicationsCommon/TrackerConfiguration/igstkPolarisTrackerConfiguration.cxx:100-156 | the Hybrid takes exactly the wireless tools that name an SROM file and the wired tools on a port below 12; a wired tool on port 12 or above is refused as an invalid port |
| PolarisConfiguration.HybridTakesWhatVicraTakes | Examples/ApplicationsCommon/TrackerConfiguration/igstkPolarisTrackerConfiguration.cxx:46-156 | every tool the Vicra takes, the Hybrid takes |
| PolarisConfiguration.AddOutcome | Examples/ApplicationsCommon/TrackerConfiguration/igstkPolarisTrackerConfiguration.cxx:100-156 | one addition leaves the frequency alone and adds exactly one event, a success exactly when the tool is taken; a refused tool leaves the list and the reference tool; a taken one is appended or becomes the reference tool, and goes nowhere else |
| PolarisConfiguration.Add | Examples/ApplicationsCommon/TrackerConfiguration/igstkPolarisTrackerConfiguration.cxx:100-156 | an addition keeps the frequency and adds one event, a success exactly when the tool is not refused |
| PolarisConfiguration.AddAllOutcome | Examples/ApplicationsCommon/TrackerConfiguration/igstkPolarisTrackerConfiguration.cxx:46-156 | after a series of additions the list holds the earlier tools followed by every ordinary tool taken, in order; the reference tool is the last one taken, or the earlier one; one event per request |
| PolarisConfiguration.LastReferenceOfTail | Examples/ApplicationsCommon/TrackerConfiguration/igstkPolarisTrackerConfiguration.cxx:73-75 | the last reference tool of a series read from its tail: a later reference replaces an earlier one |
| PolarisConfiguration.PolarisTrackerConfiguration.constructor | Examples/ApplicationsCommon/TrackerConfiguration/igstkPolarisTrackerConfiguration.cxx:27-30 | a new configuration runs at its tracker's highest refresh rate, with no tools, no reference tool and no event |
| PolarisConfiguration.PolarisTrackerConfiguration.GetMaximalRefreshRate | Examples/ApplicationsCommon/TrackerConfiguration/igstkPolarisTrackerConfiguration.cxx:22-23 | 20 Hz for the Vicra, 60 Hz for the Hybrid |
| PolarisConfiguration.PolarisTrackerConfiguration.InternalAddTool | Examples/ApplicationsCommon/TrackerConfiguration/igstkPolarisTrackerConfiguration.cxx:100-156 | checks the tool in the tracker's order and stores it as the addition function says |
| NeedleBiopsyConfiguration.TrackerTypeNames | Examples/NeedleBiopsy/igstkTrackerConfiguration.cxx:44-57 | known types are shown under names that are all different, and exactly an unknown type is shown as "Not Defined" |
| NeedleBiopsyConfiguration.ValidityOutcome | Examples/NeedleBiopsy/igstkTrackerConfiguration.cxx:63-121 | a configuration is valid (1) exactly when its type is known and, for an Aurora, its frequency is positive, otherwise 0; a valid one leaves an empty message; an unknown type leaves "Unknown tracker type" and an Aurora with a frequency of 0 or less "Invalid frequency, must be positive" |
| NeedleBiopsyConfiguration.TrackerConfiguration.constructor | Examples/NeedleBiopsy/igstkTrackerConfiguration.cxx:24-27 | a new configuration has an empty message, no sub-configuration and no known type |
| NeedleBiopsyConfiguration.TrackerConfiguration.SetTrackerType | Examples/NeedleBiopsy/igstkTrackerConfiguration.cxx:29-42 | sets the type; Polaris and Aurora get a new NDI sub-configuration, Micron a new Micron one; the other kind's is kept |
| NeedleBiopsyConfiguration.TrackerConfiguration.GetTrackerTypeAsString | Examples/NeedleBiopsy/igstkTrackerConfiguration.cxx:44-57 | the type's name, "Not Defined" exactly for an unknown type |
| NeedleBiopsyConfiguration.TrackerConfiguration.CheckValidility | Examples/NeedleBiopsy/igstkTrackerConfiguration.cxx:63-80 | the verdict and message the validity function gives for the type in force; the type and sub-configurations are kept |
| NeedleBiopsyConfiguration.TrackerConfiguration.CheckAuroraValidility | Examples/NeedleBiopsy/igstkTrackerConfiguration.cxx:82-104 | clears the message, then 0 with the frequency message when the frequency is not positive, else 1 |
| NeedleBiopsyConfiguration.TrackerConfiguration.CheckPolarisValidility | Examples/NeedleBiopsy/igstkTrackerConfiguration.cxx:106-113 | always 1 with an empty message |
| NeedleBiopsyConfiguration.TrackerConfiguration.CheckMicronValidility | Examples/NeedleBiopsy/igstkTrackerConfiguration.cxx:115-121 | always 1 with an empty message |
| WebcamImaging.ErrorCodeText | Source/igstkWebcamWinImager.cxx:98-159 | every code from 0 to 55 has a non-empty description that differs from the unknown-code text |
| WebcamImaging.GetErrorDescription | Source/igstkWebcamWinImager.cxx:161-172 | a code from 0 to 55 gets its table entry; the unknown-code text is returned exactly for codes past 55; the answer is never empty |
| WebcamImaging.ValidateSpecifiedFrequency | Source/igstkWebcamWinImager.cxx:433-442 | a frequency is accepted exactly when it lies between 0 and 30 Hz, both ends included |
| WebcamImaging.AcceptedFrequenciesFormAnInterval | Source/igstkWebcamWinImager.cxx:433-442 | any frequency between two accepted ones is accepted |
| WebcamImaging.CameraFailureReportedAsSuccessAsWritten | Source/igstkWebcamWinImager.cxx:174-199 | as written, opening reports success when the camera cannot be opened |
| WebcamImaging.InitializeAsWritten | Source/igstkWebcamWinImager.cxx:188-199 | as written, the initialisation reports true whether or not the camera opens |
| WebcamImaging.AddRemoveOutcome | Source/igstkWebcamWinImager.cxx:387-429 | adding and removing keep the two containers holding the same tools; adding gives the tool an empty frame and status 0; removing drops it from both; every other tool keeps its frame and status |
| WebcamImaging.RemoveUndoesAdd | Source/igstkWebcamWinImager.cxx:387-429 | removing a tool just added, which was not there before, restores both containers |
| WebcamImaging.WebcamWinImager.constructor | Source/igstkWebcamWinImager.cxx:61-87 | a new imager has no tools and no open camera |
| WebcamImaging.WebcamWinImager.Initialize | Source/igstkWebcamWinImager.cxx:188-199 | reports true exactly when the camera opens (the corrected return value) and leaves the containers alone |
| WebcamImaging.WebcamWinImager.InternalOpen | Source/igstkWebcamWinImager.cxx:174-185 | succeeds exactly when the camera opens |
| WebcamImaging.WebcamWinImager.InternalClose | Source/igstkWebcamWinImager.cxx:213-220 | releases the camera and succeeds |
| WebcamImaging.WebcamWinImager.AddImagerToolToInternalDataContainers | Source/igstkWebcamWinImager.cxx:387-409 | fails exactly for a missing tool, which changes nothing; otherwise the tool gets an empty frame and status 0 |
| WebcamImaging.WebcamWinImager.RemoveImagerToolFromInternalDataContainers | Source/igstkWebcamWinImager.cxx:412-429 | the tool leaves both containers, and the call succeeds |
| WebcamImaging.WebcamWinImager.InternalUpdateStatus | Source/igstkWebcamWinImager.cxx:255-313 | every tool in the frame buffer is reported: not available when its status is 0, otherwise visible with its buffered frame; the call succeeds |
| WebcamImaging.WebcamWinImager.InternalThreadedUpdateStatus | Source/igstkWebcamWinImager.cxx:318-385 | every status drops to 0; with a "Camera" tool, a grabbed frame valid for the validity time becomes its frame and its status 1; a grab that throws leaves every status at 0 and fails; the tools stay the same |

## Left out

- `igstk::StateMachine`, `igstk::Object` and the event and observer machinery are not modelled as code. Events are a list of values each machine appends to, and the observers are the functions that read that list.
- Threads, mutexes and the buffer lock are left out. Every operation runs to completion on its own.
- Logging (`igstkLogMacro`), `PrintSelf` and `Print` only write text, so they are left out.
- Unmapped (state, input) pairs: the engine drops the input. The model drops it too and appends no event.
- Uninitialised fields of the C++ objects start at zero or empty in the model.
- The system clock is the parameter `now`. `igstk::TimeStamp` is modelled by its start and expiration times only.
- The `ExportTransform` overload into a VTK matrix is left out, because VTK objects are not modelled.
- Transforms.Transform.SetTranslationAndRotation: igstkTimeStamp.cxx is not part of this model. A stamp's validity is taken as the half-open window from its start up to, not including, its expiration, as the toolkit documents it; with a closed window a zero period would be valid at now.
- Transforms.ComposeWithIdentity: states the identity law for the rotation and the translation only. The error and the time stamp of a composition follow their own rules, which `TransformCompose` states.
- Transforms.InverseInvolution: states the rotation, error and stamp only. Restoring the translation needs a unit rotation and is not stated. Floating-point rounding is not modelled.
- The Polaris and Aurora `InternalOpen`, `InternalClose`, `InternalStartTracking`, `InternalStopTracking`, `InternalReset` and `SetCommunication` talk only to the serial device and the command interpreter's wire format. They are not modelled beyond the commands the port bookkeeping sends.
- The NDI command interpreter's wire format, CRC and reply parsing are not part of this model. The interpreter is the scripted `Script`.
- The Aurora's number of ports is a constructor parameter, because the value comes from the device's configuration.
- The tool classes' `GetToolTypeAsString` strings, their copy constructors, and the base `RequestAddTool` of the tracker configuration are not part of this model. The configurations record the accepted tools as values.
- NeedleBiopsyConfiguration: the default values of the constructor are its parameters. A tracker type that was never set is the constructor `Unset`.
- WebcamImaging: the OpenCV capture is a boolean for whether the camera opens and a `Grab` for each grab: a frame grabbed, or an exception thrown. The `memcpy` of a null frame is left out.
- WebcamImaging: the static error-code map is modelled as a function. The iteration order of the tool maps is left out, because every tool is treated the same way.
- WebcamImaging: `InternalStartImaging`, `InternalStopImaging`, `InternalReset` and `VerifyImagerToolInformation` only return success, so they are left out.
- WebcamImaging: `Initialize` returns `bool`, so its `return 1` is the value true. `ResultType` is modelled by its two values `Success` and `Failure`.
- ReslicerPlane: with no tool set, `RequestGetToolTransformProcessing` would dereference a null pointer. The model treats it like a tool that does not answer.
- ReslicerPlane: a tool that never answers leaves the plane in `AttemptingToGetToolTransformState`, as the source does. The model exhibits that state and does not retry.
- ReslicerPlane: only the tool transform's translation is used, because the plane computation reads only the translation.
- ReslicerPlane.TiltedPlaneFollowsTool: states the plane's centre and its tool position. The oblique and off-orthogonal normals, which come from cross products of floating-point vectors, are not stated.
- ReslicerPlane: the bounding-box observer of the reference spatial object is the parameter that supplies the bounds.
- TrackerControl.MedSafeInitializationIsSilent: states as behaviour that the MedSafe family stops in its attempt state with no event. `MedSafeInitializeProcessing` has an empty body in the source, with its implementation commented out.
- TrackerControl.ShutdownWhileTrackingLeavesCommunicationOpen: states as behaviour, not as a finding, that a shutdown from Tracking leaves the communication open. The close input arrives while the stop attempt is still waiting for its verdict, so it is rejected. Whether the authors meant this cannot be read from the source.

## Findings

| source | as written | input that shows it | evidently intended | confidence | as-written member | corrected member |
|---|---|---|---|---|---|---|
| Source/igstkPolarisTracker.cxx:347-355 | the SROM guard is `portNum >= 3 && portNum <= NumberOfPorts` | port 12 passes the guard and writes one past the end of the 12-entry file-name array | `portNum < NumberOfPorts` | high; not executed | PolarisTracking.AttachGuardAsWrittenAdmitsOnePastTheEnd | PolarisTracking.PolarisTracker.AttachSROMFileNameToPort |
| Source/igstkPolarisTracker.cxx:515-536 | the enabled flag is written at the decoded port with no bounds check, although the handle write just above is guarded | location digits "00" give the unsigned index 2^32 − 1; letter "Z" gives port 28 | guard the enabled write as the handle write is guarded | high; not executed | PolarisTracking.EnabledWriteEscapesAsWritten | Ndi.TableAfterAt |
| Source/igstkAuroraTracker.cxx:422-435 | the same unguarded enabled write in the Aurora | location digits "00" give the unsigned index 2^32 − 1 | guard the enabled write | high; not executed | AuroraTracking.EnabledWriteEscapesAsWritten | Ndi.TableAfterAt |
| Examples/ApplicationsCommon/TrackerConfiguration/configurationFileReaders/oigtLinkConfigurationReaders/igstkOIGTLinkTrackerConfigurationFileReader.cxx:265-268 | Read in HaveData goes to AttemptingRead and only reports an invalid request | a second Read after a successful read: no verdict is ever pushed, and every later request is rejected | stay in HaveData, or read again as from Initialized | medium; not executed | OIGTLinkReader.StuckForeverAsWritten | OIGTLinkReader.RequestKeepsConsistent |
| Source/igstkPolarisTracker.cxx:243-254 | a null quaternion becomes `rotation.Set(1, 0, 0, 0)`, and the buffer reset at lines 287-298 stores the same four values | the reset record, or any record with a quaternion norm below 10^-3, turns (0, 1, 0) into (0, −1, 0) | the identity rotation, with the scalar part 1 | medium; not executed | Ndi.ResetRecordNotIdentityAsWritten | Ndi.ResetRecordIsIdentity |
| Source/igstkPolarisTracker.cxx:250-254 | every record's quaternion goes to `rotation.Set(buf[0], buf[1], buf[2], buf[3])`; the record is scalar first and `Set` takes x, y, z, w; the Aurora does the same at igstkAuroraTracker.cxx:230-233 | a tool reporting no rotation, (1, 0, 0, 0): the reported rotation is the half turn about x; (0.7071, 0.7071, 0, 0) becomes x = y = 0.7071, w = 0 | `Set(buf[1], buf[2], buf[3], buf[0])` | medium; not executed | Ndi.BufferRotationReordersAsWritten | Ndi.BufferRotation |
| Source/igstkWebcamWinImager.cxx:188-199 | `Initialize` returns 1 when the camera cannot be opened | a camera that does not open: `InternalOpen` reports success | return FAILURE | high; not executed | WebcamImaging.CameraFailureReportedAsSuccessAsWritten | WebcamImaging.WebcamWinImager.InternalOpen |
