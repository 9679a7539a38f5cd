/** The integer enums that travel the bus, with the decode/encode pair that
    `wire_enum!` generates for each of them. */
module WireCodes {
  import opened Prelude

  datatype AttentionType = UnsetType | Credentials | Pkcs11Type | AccessPerm

  datatype AttentionGroup =
    | UnsetGroup | UserPassword | HttpProxyCreds | PkPassphrase | ChallengeStatic
    | ChallengeDynamic | ChallengeAuthPending | Pkcs11Sign | Pkcs11Decrypt | OpenUrl

  datatype StatusMajor = UnsetMajor | Config | Connection | Session | Pkcs11Major | Process

  datatype StatusMinor =
    | UnsetMinor | CfgError | CfgOk | CfgInlineMissing | CfgRequireUser
    | ConnInit | ConnConnecting | ConnConnected | ConnDisconnecting | ConnDisconnected
    | ConnFailed | ConnAuthFailed | ConnReconnecting | ConnPausing | ConnPaused
    | ConnResuming | ConnDone | SessNew | SessBackendCompleted | SessRemoved
    | SessAuthUserpass | SessAuthChallenge | SessAuthUrl | Pkcs11SignMinor | Pkcs11Encrypt
    | Pkcs11DecryptMinor | Pkcs11Verify | ProcStarted | ProcStopped | ProcKilled

  /** `TryFrom`: an unknown code decodes to nothing. */
  function DecodeType(value: int): Option<AttentionType> {
    match value
    case 0 => Some(UnsetType)
    case 1 => Some(Credentials)
    case 2 => Some(Pkcs11Type)
    case 3 => Some(AccessPerm)
    case _ => None
  }

  function DecodeGroup(value: int): Option<AttentionGroup> {
    match value
    case 0 => Some(UnsetGroup)
    case 1 => Some(UserPassword)
    case 2 => Some(HttpProxyCreds)
    case 3 => Some(PkPassphrase)
    case 4 => Some(ChallengeStatic)
    case 5 => Some(ChallengeDynamic)
    case 6 => Some(ChallengeAuthPending)
    case 7 => Some(Pkcs11Sign)
    case 8 => Some(Pkcs11Decrypt)
    case 9 => Some(OpenUrl)
    case _ => None
  }

  function DecodeMajor(value: int): Option<StatusMajor> {
    match value
    case 0 => Some(UnsetMajor)
    case 1 => Some(Config)
    case 2 => Some(Connection)
    case 3 => Some(Session)
    case 4 => Some(Pkcs11Major)
    case 5 => Some(Process)
    case _ => None
  }

  function DecodeMinor(value: int): Option<StatusMinor> {
    match value
    case 0 => Some(UnsetMinor)
    case 1 => Some(CfgError)
    case 2 => Some(CfgOk)
    case 3 => Some(CfgInlineMissing)
    case 4 => Some(CfgRequireUser)
    case 5 => Some(ConnInit)
    case 6 => Some(ConnConnecting)
    case 7 => Some(ConnConnected)
    case 8 => Some(ConnDisconnecting)
    case 9 => Some(ConnDisconnected)
    case 10 => Some(ConnFailed)
    case 11 => Some(ConnAuthFailed)
    case 12 => Some(ConnReconnecting)
    case 13 => Some(ConnPausing)
    case 14 => Some(ConnPaused)
    case 15 => Some(ConnResuming)
    case 16 => Some(ConnDone)
    case 17 => Some(SessNew)
    case 18 => Some(SessBackendCompleted)
    case 19 => Some(SessRemoved)
    case 20 => Some(SessAuthUserpass)
    case 21 => Some(SessAuthChallenge)
    case 22 => Some(SessAuthUrl)
    case 23 => Some(Pkcs11SignMinor)
    case 24 => Some(Pkcs11Encrypt)
    case 25 => Some(Pkcs11DecryptMinor)
    case 26 => Some(Pkcs11Verify)
    case 27 => Some(ProcStarted)
    case 28 => Some(ProcStopped)
    case 29 => Some(ProcKilled)
    case _ => None
  }

  /** `From`: the discriminant. */
  function EncodeType(t: AttentionType): int {
    match t
    case UnsetType => 0
    case Credentials => 1
    case Pkcs11Type => 2
    case AccessPerm => 3
  }

  function EncodeGroup(g: AttentionGroup): int {
    match g
    case UnsetGroup => 0
    case UserPassword => 1
    case HttpProxyCreds => 2
    case PkPassphrase => 3
    case ChallengeStatic => 4
    case ChallengeDynamic => 5
    case ChallengeAuthPending => 6
    case Pkcs11Sign => 7
    case Pkcs11Decrypt => 8
    case OpenUrl => 9
  }

  function EncodeMajor(code: StatusMajor): int {
    match code
    case UnsetMajor => 0
    case Config => 1
    case Connection => 2
    case Session => 3
    case Pkcs11Major => 4
    case Process => 5
  }

  function EncodeMinor(code: StatusMinor): int {
    match code
    case UnsetMinor => 0
    case CfgError => 1
    case CfgOk => 2
    case CfgInlineMissing => 3
    case CfgRequireUser => 4
    case ConnInit => 5
    case ConnConnecting => 6
    case ConnConnected => 7
    case ConnDisconnecting => 8
    case ConnDisconnected => 9
    case ConnFailed => 10
    case ConnAuthFailed => 11
    case ConnReconnecting => 12
    case ConnPausing => 13
    case ConnPaused => 14
    case ConnResuming => 15
    case ConnDone => 16
    case SessNew => 17
    case SessBackendCompleted => 18
    case SessRemoved => 19
    case SessAuthUserpass => 20
    case SessAuthChallenge => 21
    case SessAuthUrl => 22
    case Pkcs11SignMinor => 23
    case Pkcs11Encrypt => 24
    case Pkcs11DecryptMinor => 25
    case Pkcs11Verify => 26
    case ProcStarted => 27
    case ProcStopped => 28
    case ProcKilled => 29
  }

  /** The narrowing decode that the worker applies to a queued pair. */
  function DecodePair(kind: u32, group: u32): Option<(AttentionType, AttentionGroup)> {
    match (DecodeType(AsU8(kind)), DecodeGroup(AsU8(group)))
    case (Some(t), Some(g)) => Some((t, g))
    case _ => None
  }

  /** Encoding and decoding are inverse, so no two codes share a wire value. */
  lemma CodesRoundTrip(t: AttentionType, g: AttentionGroup)
    ensures DecodeType(EncodeType(t)) == Some(t)
    ensures DecodeGroup(EncodeGroup(g)) == Some(g)
    ensures forall v :: DecodeType(v) == Some(t) ==> v == EncodeType(t)
    ensures forall v :: DecodeGroup(v) == Some(g) ==> v == EncodeGroup(g)
  {
  }

  /** So it is for the codes of a status. */
  lemma StatusCodesRoundTrip(major: StatusMajor, minor: StatusMinor)
    ensures DecodeMajor(EncodeMajor(major)) == Some(major)
    ensures DecodeMinor(EncodeMinor(minor)) == Some(minor)
    ensures forall v :: DecodeMajor(v) == Some(major) ==> v == EncodeMajor(major)
    ensures forall v :: DecodeMinor(v) == Some(minor) ==> v == EncodeMinor(minor)
  {
  }

  /** A queued pair that decodes is answered under its own wire values exactly
      when neither value lost bits to the `as u8` narrowing. */
  lemma NarrowingIsExact(kind: u32, group: u32)
    requires DecodePair(kind, group).Some?
    ensures var (t, g) := DecodePair(kind, group).value;
            EncodeType(t) == kind && EncodeGroup(g) == group <==> kind < 0x100 && group < 0x100
  {
    var (t, g) := DecodePair(kind, group).value;
    CodesRoundTrip(t, g);
    assert EncodeType(t) == AsU8(kind) && EncodeGroup(g) == AsU8(group);
  }

  /** The narrowing does accept codes openvpn3 never defined. */
  lemma NarrowingAliases()
    ensures DecodePair(0x101, 0x101) == DecodePair(1, 1) == Some((Credentials, UserPassword))
  {
    assert AsU8(0x101) == 1;
  }
}
