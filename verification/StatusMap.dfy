/** Connection state and the mapping of openvpn3's status codes onto it. */
module StatusMap {
  import opened Prelude
  import opened WireCodes

  datatype ConnectionState = Disconnected | Connecting | Connected | AuthPending | Failed

  /** What a status does to the display: put it in a state, or leave it as it is. */
  datatype StateTransition = Set(state: ConnectionState) | Hold

  datatype Status = Status(major: StatusMajor, minor: StatusMinor, message: string) {
    function Transition(): StateTransition { MapStatus(major, minor) }

    /** The session said it is over. */
    predicate ReportsDown() { Transition() == Set(Disconnected) }

    predicate ReportsConnected() { Transition() == Set(Connected) }
  }

  function MapStatus(major: StatusMajor, minor: StatusMinor): StateTransition {
    match (major, minor)
    case (Connection, ConnDisconnected) => Set(Disconnected)
    case (Connection, ConnDone) => Set(Disconnected)
    case (Session, SessRemoved) => Set(Disconnected)
    case (Config, CfgOk) => Set(Connecting)
    case (Connection, ConnInit) => Set(Connecting)
    case (Connection, ConnConnecting) => Set(Connecting)
    case (Connection, ConnReconnecting) => Set(Connecting)
    case (Connection, ConnDisconnecting) => Set(Connecting)
    case (Connection, ConnPausing) => Set(Connecting)
    case (Connection, ConnPaused) => Set(Connecting)
    case (Connection, ConnResuming) => Set(Connecting)
    case (Connection, ConnConnected) => Set(Connected)
    case (Config, CfgRequireUser) => Set(AuthPending)
    case (Session, SessAuthUserpass) => Set(AuthPending)
    case (Session, SessAuthChallenge) => Set(AuthPending)
    case (Session, SessAuthUrl) => Set(AuthPending)
    case (Config, CfgError) => Set(Failed)
    case (Config, CfgInlineMissing) => Set(Failed)
    case (Connection, ConnFailed) => Set(Failed)
    case (Connection, ConnAuthFailed) => Set(Failed)
    case (Process, ProcKilled) => Set(Failed)
    case _ => Hold
  }

  /** `Status::from_wire` on the already narrowed integers. */
  function FromWire(major: int, minor: int, message: string): Option<Status> {
    match (DecodeMajor(major), DecodeMinor(minor))
    case (Some(ma), Some(mi)) => Some(Status(ma, mi, message))
    case _ => None
  }

  /** The statuses the protocol turns on: one means connected, three mean over. */
  lemma StatusesThatMatter(s: Status)
    ensures s.ReportsConnected() <==> s.major == Connection && s.minor == ConnConnected
    ensures s.ReportsDown() <==>
              || (s.major == Connection && (s.minor == ConnDisconnected || s.minor == ConnDone))
              || (s.major == Session && s.minor == SessRemoved)
  {
  }

  /** The same from the numbers on the bus: which pairs decode at all, and which of
      them put the display into which state. Every other known pair leaves it alone. */
  lemma StatusesOnTheWire(major: u32, minor: u32, message: string)
    ensures var code := (major % 0x100, minor % 0x1_0000);
            match FromWire(AsU8(major), AsU16(minor), message)
            case None => code.0 > 5 || code.1 > 29
            case Some(status) =>
              && code.0 <= 5 && code.1 <= 29 && status.message == message
              && (EncodeMajor(status.major), EncodeMinor(status.minor)) == code
              && (status.Transition() == Set(Connected) <==> code == (2, 7))
              && (status.Transition() == Set(Disconnected) <==> code in {(2, 9), (2, 16), (3, 19)})
              && (status.Transition() == Set(Failed)
                  <==> code in {(1, 1), (1, 3), (2, 10), (2, 11), (5, 29)})
              && (status.Transition() == Set(AuthPending)
                  <==> code in {(1, 4), (3, 20), (3, 21), (3, 22)})
              && (status.Transition() == Set(Connecting)
                  <==> code in {(1, 2), (2, 5), (2, 6), (2, 8), (2, 12), (2, 13), (2, 14), (2, 15)})
  {
  }
}
