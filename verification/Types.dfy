/** The value types of the client: records, samples, configuration and the health snapshot. */
module Types {

  datatype Option<+T> = None | Some(value: T)

  /** Unsigned 32-bit counters as they appear on the wire. */
  type U32 = x: int | 0 <= x < 0x1_0000_0000

  datatype ForceUnit = UnknownForce | PoundForce | Newton | KiloPoundForce | KiloNewton | KilogramForce

  datatype TorqueUnit =
    | UnknownTorque | PoundForceInch | PoundForceFoot | NewtonMeter
    | NewtonMillimeter | KilogramForceCentimeter | KiloNewtonMeter

  datatype CalibrationRaw = Calibration(
    countsPerForceUnit: real,
    countsPerTorqueUnit: real,
    forceUnit: ForceUnit,
    torqueUnit: TorqueUnit)

  /** Calibrations reach the client validated: both divisors are positive. */
  type Calibration = c: CalibrationRaw | c.countsPerForceUnit > 0.0 && c.countsPerTorqueUnit > 0.0
    witness Calibration(1.0, 1.0, Newton, NewtonMeter)

  datatype SensorConfiguration = SensorConfiguration(productName: string, calibration: Calibration, revision: nat)

  datatype RecoveryPolicy = Reconnect | FailStop

  datatype ClientState = Stopped | Connecting | Streaming | Backoff | Faulted

  datatype FaultCode =
    | NoFault | SensorConfigurationFault | TimeoutFault | SocketFault | SeriousStatusFault
    | FtStallFault | FtBackwardFault | MalformedStormFault | CallbackFault

  /** How one receive session ended. */
  datatype SessionResult =
    | SessionStopped | ConfigurationFailed | TimedOut | SocketFailed | SeriousStatus
    | FtStalled | FtWentBackward | MalformedStorm | CallbackFailed

  datatype Severity = Fine | Warn | Error

  /** Clock readings and durations are seconds. */
  datatype Config = Config(
    policy: RecoveryPolicy,
    sampleRateLimitHz: real,
    deliverSamplesWithErrorStatus: bool,
    reconnectInitialDelay: real,
    reconnectMaxDelay: real)

  type Wrench = w: seq<int> | |w| == 6 witness [0, 0, 0, 0, 0, 0]

  datatype RawRecord = RawRecord(rdtSequence: U32, ftSequence: U32, status: U32, wrench: Wrench)

  datatype Sample = Sample(
    rdtSequence: U32,
    ftSequence: U32,
    status: U32,
    rawWrench: Wrench,
    force: seq<real>,
    torque: seq<real>,
    forceUnit: ForceUnit,
    torqueUnit: TorqueUnit,
    configurationRevision: nat,
    receivedAt: real)

  datatype Counters = Counters(
    received: nat, delivered: nat, rateLimited: nat,
    deviceError: nat, warning: nat, lost: nat,
    duplicate: nat, outOfOrder: nat, malformed: nat,
    reconnect: nat, timeout: nat, callbackError: nat,
    ftStall: nat, ftBackward: nat, ftRestart: nat,
    calibrationChange: nat)

  const ZERO_COUNTERS := Counters(0, 0, 0, 0, 0, 0, 0, 0, 0, 0, 0, 0, 0, 0, 0, 0)

  /** A reported fault: its code and its message. */
  datatype Fault = Fault(code: FaultCode, message: string)

  datatype HealthSnapshot = HealthSnapshot(
    state: ClientState,
    faultCode: FaultCode,
    lastError: string,
    configuration: Option<SensorConfiguration>,
    lastRdtSequence: Option<U32>,
    lastFtSequence: Option<U32>,
    lastStatus: U32,
    receiveRate: nat,
    deliveryRate: nat,
    lastRecordAge: Option<real>,
    counters: Counters)

  function One(b: bool): nat {
    if b then 1 else 0
  }

  /** The device status word: zero is healthy, one code is a warning, every other word is an error. */
  function ClassifyStatus(status: U32): Severity {
    if status == 0 then Fine else if status == 0x8001_0000 then Warn else Error
  }

  function FaultFor(result: SessionResult): FaultCode {
    match result
    case SessionStopped => NoFault
    case ConfigurationFailed => SensorConfigurationFault
    case TimedOut => TimeoutFault
    case SocketFailed => SocketFault
    case SeriousStatus => SeriousStatusFault
    case FtStalled => FtStallFault
    case FtWentBackward => FtBackwardFault
    case MalformedStorm => MalformedStormFault
    case CallbackFailed => CallbackFault
  }

  function MessageFor(result: SessionResult): string {
    match result
    case SessionStopped => ""
    case ConfigurationFailed => "sensor configuration discovery failed"
    case TimedOut => "no valid RDT record before timeout"
    case SocketFailed => "UDP socket failure"
    case SeriousStatus => "serious device status"
    case FtStalled => "FT sequence stalled"
    case FtWentBackward => "FT sequence moved backward"
    case MalformedStorm => "malformed packet storm"
    case CallbackFailed => "sample callback failed"
  }
}
