/** The stored form of a box: conversions in both directions, and what they do
    to durations and to the creation time. */
module BoxRecord {

  import opened Wrappers

  datatype Result<T> = Ok(value: T) | Unsupported(what: string)

  // ----- Machine integers and times

  const U64_MAX: nat := 0xFFFF_FFFF_FFFF_FFFF
  const I64_MAX: nat := 0x7FFF_FFFF_FFFF_FFFF
  const I64_MIN: int := -0x8000_0000_0000_0000
  const NANOS: nat := 1_000_000
  const NANOS_PER_SECOND: nat := 1_000_000_000

  type U64 = n: int | 0 <= n <= U64_MAX

  type I64 = n: int | I64_MIN <= n <= I64_MAX witness 0

  /** Nanoseconds; the seconds fit 64 bits. */
  type Duration = n: int | 0 <= n < (U64_MAX + 1) * NANOS_PER_SECOND

  /** Nanoseconds after the epoch; the seconds fit 64 signed bits. */
  type SystemTime = n: int | I64_MIN * NANOS_PER_SECOND <= n < (I64_MAX + 1) * NANOS_PER_SECOND witness 0

  function Millis(d: Duration): U64 {
    var ms := d / NANOS;
    if ms <= U64_MAX then ms else U64_MAX
  }

  function DurationFromMillis(ms: U64): Duration { ms * NANOS }

  function SystemTimeMs(at: SystemTime): I64 {
    if at >= 0 then
      var ms := at / NANOS;
      if ms <= I64_MAX then ms else I64_MAX
    else
      var ms := Abs(at) / NANOS;
      if ms <= I64_MAX then -ms else I64_MIN
  }

  /** `unsigned_abs`: also of the least value. */
  function Abs(n: int): nat { if n < 0 then -n else n }

  function SystemTimeFromMs(ms: I64): SystemTime {
    var magnitude: int := DurationFromMillis(Abs(ms));
    if ms >= 0 then magnitude else -magnitude
  }

  // ----- The model and the record

  datatype BoxState = Creating | Ready | Running | Paused | Stopped | Archived | Failed | FutureState(tag: nat)

  datatype StateRecord = CreatingR | ReadyR | RunningR | PausedR | StoppedR | ArchivedR | FailedR

  datatype WorkspaceSource =
    | LocalDir(path: string)
    | OciImage(image: string)
    | Snapshot(snapshot: string)
    | GitRepo(url: string, rev: string)
    | FutureSource(tag: nat)

  datatype SourceRecord =
    | LocalDirR(path: string)
    | OciImageR(image: string)
    | SnapshotR(snapshot: string)
    | GitRepoR(url: string, rev: string)

  datatype Lifecycle =
    | Ephemeral(ttl: Duration)
    | Persistent(autosnapshot: Option<Duration>)
    | FutureLifecycle(tag: nat)

  datatype LifecycleRecord = EphemeralR(ttlMs: U64) | PersistentR(autosnapshotMs: Option<U64>)

  datatype NetworkPolicy =
    | Denied
    | Egress
    | Allowlist(hosts: seq<string>, ports: seq<nat>)
    | Open
    | FuturePolicy(tag: nat)

  datatype NetworkRecord = DeniedR | EgressR | AllowlistR(hosts: seq<string>, ports: seq<nat>) | OpenR

  /** Placements, constraints and port mappings are stored as they are. */
  datatype BoxSpec = BoxSpec(
    runner: string, workspace: string, source: WorkspaceSource, resources: Resources, lifecycle: Lifecycle,
    network: NetworkPolicy, hardRequirements: seq<string>, ports: set<(nat, nat)>, env: map<string, string>)

  datatype Resources = Resources(cpuMillis: nat, memoryBytes: nat, pidsMax: nat, diskBytes: nat)

  datatype SpecRecord = SpecRecord(
    runner: string, workspace: string, source: SourceRecord, resources: Resources, lifecycle: LifecycleRecord,
    network: NetworkRecord, hardRequirements: seq<string>, ports: set<(nat, nat)>, env: map<string, string>)

  datatype BoxInfo = BoxInfo(id: string, state: BoxState, spec: BoxSpec, createdAt: Option<SystemTime>)

  datatype Record = Record(state: StateRecord, spec: SpecRecord, createdMs: Option<I64>)

  // ----- Encoding

  function EncodeState(s: BoxState): Result<StateRecord> {
    match s
    case Creating => Ok(CreatingR)
    case Ready => Ok(ReadyR)
    case Running => Ok(RunningR)
    case Paused => Ok(PausedR)
    case Stopped => Ok(StoppedR)
    case Archived => Ok(ArchivedR)
    case Failed => Ok(FailedR)
    case FutureState(_) => Unsupported("box state")
  }

  function EncodeSource(s: WorkspaceSource): Result<SourceRecord> {
    match s
    case LocalDir(path) => Ok(LocalDirR(path))
    case OciImage(image) => Ok(OciImageR(image))
    case Snapshot(snapshot) => Ok(SnapshotR(snapshot))
    case GitRepo(url, rev) => Ok(GitRepoR(url, rev))
    case FutureSource(_) => Unsupported("workspace source")
  }

  function EncodeLifecycle(l: Lifecycle): Result<LifecycleRecord> {
    match l
    case Ephemeral(ttl) => Ok(EphemeralR(Millis(ttl)))
    case Persistent(None) => Ok(PersistentR(None))
    case Persistent(Some(every)) => Ok(PersistentR(Some(Millis(every))))
    case FutureLifecycle(_) => Unsupported("lifecycle")
  }

  function EncodeNetwork(p: NetworkPolicy): Result<NetworkRecord> {
    match p
    case Denied => Ok(DeniedR)
    case Egress => Ok(EgressR)
    case Allowlist(hosts, ports) => Ok(AllowlistR(hosts, ports))
    case Open => Ok(OpenR)
    case FuturePolicy(_) => Unsupported("network policy")
  }

  function EncodeSpec(spec: BoxSpec): Result<SpecRecord> {
    match EncodeSource(spec.source)
    case Unsupported(what) => Unsupported(what)
    case Ok(source) =>
      match EncodeLifecycle(spec.lifecycle)
      case Unsupported(what) => Unsupported(what)
      case Ok(lifecycle) =>
        match EncodeNetwork(spec.network)
        case Unsupported(what) => Unsupported(what)
        case Ok(network) =>
          Ok(SpecRecord(spec.runner, spec.workspace, source, spec.resources, lifecycle, network,
                        spec.hardRequirements, spec.ports, spec.env))
  }

  function Encode(info: BoxInfo): Result<Record> {
    match EncodeState(info.state)
    case Unsupported(what) => Unsupported(what)
    case Ok(state) =>
      match EncodeSpec(info.spec)
      case Unsupported(what) => Unsupported(what)
      case Ok(spec) =>
        Ok(Record(state, spec, if info.createdAt.None? then None else Some(SystemTimeMs(info.createdAt.value))))
  }

  // ----- Decoding

  function DecodeState(s: StateRecord): BoxState {
    match s
    case CreatingR => Creating
    case ReadyR => Ready
    case RunningR => Running
    case PausedR => Paused
    case StoppedR => Stopped
    case ArchivedR => Archived
    case FailedR => Failed
  }

  function DecodeSource(s: SourceRecord): WorkspaceSource {
    match s
    case LocalDirR(path) => LocalDir(path)
    case OciImageR(image) => OciImage(image)
    case SnapshotR(snapshot) => Snapshot(snapshot)
    case GitRepoR(url, rev) => GitRepo(url, rev)
  }

  function DecodeLifecycle(l: LifecycleRecord): Lifecycle {
    match l
    case EphemeralR(ttl) => Ephemeral(DurationFromMillis(ttl))
    case PersistentR(None) => Persistent(None)
    case PersistentR(Some(every)) => Persistent(Some(DurationFromMillis(every)))
  }

  function DecodeNetwork(p: NetworkRecord): NetworkPolicy {
    match p
    case DeniedR => Denied
    case EgressR => Egress
    case AllowlistR(hosts, ports) => Allowlist(hosts, ports)
    case OpenR => Open
  }

  /** The workspace and the source of a new specification, then the other
      fields one by one. */
  function DecodeSpec(r: SpecRecord): BoxSpec {
    NewSpec(r.workspace, DecodeSource(r.source)).(
      runner := r.runner,
      resources := r.resources,
      lifecycle := DecodeLifecycle(r.lifecycle),
      network := DecodeNetwork(r.network),
      hardRequirements := r.hardRequirements,
      ports := r.ports,
      env := r.env)
  }

  const DEFAULT_RESOURCES := Resources(2_000, 2 * 1024 * 1024 * 1024, 512, 8 * 1024 * 1024 * 1024)

  function NewSpec(workspace: string, source: WorkspaceSource): BoxSpec {
    BoxSpec(workspace, workspace, source, DEFAULT_RESOURCES, Ephemeral(3_600 * NANOS_PER_SECOND), Denied, [], {}, map[])
  }

  function Decode(r: Record, id: string): BoxInfo {
    BoxInfo(id, DecodeState(r.state), DecodeSpec(r.spec), None).(
      createdAt := if r.createdMs.None? then None else Some(SystemTimeFromMs(r.createdMs.value)))
  }

  // ----- What a stored time is

  /** `t` is `at` cut to whole milliseconds toward the epoch, kept between
      `least` and `most` milliseconds. */
  ghost predicate Cut(at: int, t: int, least: int, most: int) {
    && (exists ms :: least <= ms <= most && t == ms * NANOS)
    && Abs(t) <= Abs(at) && (t == 0 || (t > 0 <==> at > 0))
    && (Abs(at) - Abs(t) < NANOS || (at > 0 && t == most * NANOS) || (at < 0 && t == least * NANOS))
  }

  lemma CutIsUnique(at: int, t: int, u: int, least: int, most: int)
    requires least <= 0 <= most && Cut(at, t, least, most) && Cut(at, u, least, most)
    ensures t == u
  {
    var a :| least <= a <= most && t == a * NANOS;
    var b :| least <= b <= most && u == b * NANOS;
  }

  lemma DurationCut(d: Duration)
    ensures Cut(d, DurationFromMillis(Millis(d)), 0, U64_MAX)
  {
    var ms := Millis(d);
    assert 0 <= ms <= U64_MAX && DurationFromMillis(ms) == ms * NANOS;
  }

  lemma TimeCut(at: SystemTime)
    ensures Cut(at, SystemTimeFromMs(SystemTimeMs(at)), I64_MIN, I64_MAX)
  {
    var ms := SystemTimeMs(at);
    assert I64_MIN <= ms <= I64_MAX && SystemTimeFromMs(ms) == ms * NANOS;
  }

  /** Every stored time is stable, the two extreme ones included. */
  lemma TimesRoundTrip(ms: I64, d: U64)
    ensures SystemTimeMs(SystemTimeFromMs(ms)) == ms && Millis(DurationFromMillis(d)) == d
  {
  }

  // ----- The stored names

  /** The names under which the schema stores each variant. */
  function StateTag(s: StateRecord): string {
    match s
    case CreatingR => "creating"
    case ReadyR => "ready"
    case RunningR => "running"
    case PausedR => "paused"
    case StoppedR => "stopped"
    case ArchivedR => "archived"
    case FailedR => "failed"
  }

  function NetworkTag(n: NetworkRecord): string {
    match n
    case DeniedR => "denied"
    case EgressR => "egress"
    case AllowlistR(_, _) => "allowlist"
    case OpenR => "open"
  }

  function SourceTag(s: SourceRecord): string {
    match s
    case LocalDirR(_) => "local_dir"
    case OciImageR(_) => "oci_image"
    case SnapshotR(_) => "snapshot"
    case GitRepoR(_, _) => "git_repo"
  }

  function LifecycleTag(l: LifecycleRecord): string { if l.EphemeralR? then "ephemeral" else "persistent" }

  function StateName(s: BoxState): string {
    match s
    case Creating => "creating"
    case Ready => "ready"
    case Running => "running"
    case Paused => "paused"
    case Stopped => "stopped"
    case Archived => "archived"
    case Failed => "failed"
    case FutureState(_) => ""
  }

  function NetworkName(n: NetworkPolicy): string {
    match n
    case Denied => "denied"
    case Egress => "egress"
    case Allowlist(_, _) => "allowlist"
    case Open => "open"
    case FuturePolicy(_) => ""
  }

  function SourceName(s: WorkspaceSource): string {
    match s
    case LocalDir(_) => "local_dir"
    case OciImage(_) => "oci_image"
    case Snapshot(_) => "snapshot"
    case GitRepo(_, _) => "git_repo"
    case FutureSource(_) => ""
  }

  function LifecycleName(l: Lifecycle): string {
    match l
    case Ephemeral(_) => "ephemeral"
    case Persistent(_) => "persistent"
    case FutureLifecycle(_) => ""
  }

  lemma PartsUnderOwnName(s: BoxState, source: WorkspaceSource, l: Lifecycle, n: NetworkPolicy)
    ensures EncodeState(s).Ok? ==> StateTag(EncodeState(s).value) == StateName(s)
    ensures EncodeSource(source).Ok? ==> SourceTag(EncodeSource(source).value) == SourceName(source)
    ensures EncodeLifecycle(l).Ok? ==> LifecycleTag(EncodeLifecycle(l).value) == LifecycleName(l)
    ensures EncodeNetwork(n).Ok? ==> NetworkTag(EncodeNetwork(n).value) == NetworkName(n)
  {
    hide Millis;
  }

  /** Each variant of the model is stored under its own name. */
  lemma StoredUnderOwnName(info: BoxInfo)
    requires Encode(info).Ok?
    ensures var r := Encode(info).value;
            && StateTag(r.state) == StateName(info.state)
            && SourceTag(r.spec.source) == SourceName(info.spec.source)
            && LifecycleTag(r.spec.lifecycle) == LifecycleName(info.spec.lifecycle)
            && NetworkTag(r.spec.network) == NetworkName(info.spec.network)
  {
    PartsUnderOwnName(info.state, info.spec.source, info.spec.lifecycle, info.spec.network);
    hide StateTag, StateName, SourceTag, SourceName, LifecycleTag, LifecycleName, NetworkTag, NetworkName,
         EncodeState, EncodeSource, EncodeLifecycle, EncodeNetwork, SystemTimeMs;
  }

  // ----- The codec

  lemma EncodeAfterDecode(r: Record, id: string)
    ensures Encode(Decode(r, id)) == Ok(r)
  {
    if r.createdMs.Some? { TimesRoundTrip(r.createdMs.value, 0); }
    match r.spec.lifecycle
    case EphemeralR(ttl) => TimesRoundTrip(0, ttl);
    case PersistentR(Some(every)) => TimesRoundTrip(0, every);
    case PersistentR(None) =>
  }

  predicate Known(info: BoxInfo) {
    !info.state.FutureState? && !info.spec.source.FutureSource?
    && !info.spec.lifecycle.FutureLifecycle? && !info.spec.network.FuturePolicy?
  }

  ghost predicate SameLifecycle(a: Lifecycle, b: Lifecycle) {
    match (a, b)
    case (Ephemeral(x), Ephemeral(y)) => Cut(x, y, 0, U64_MAX)
    case (Persistent(None), Persistent(None)) => true
    case (Persistent(Some(x)), Persistent(Some(y))) => Cut(x, y, 0, U64_MAX)
    case _ => false
  }

  /** `b` is the box `a` with its times cut to stored precision. */
  ghost predicate SameBox(a: BoxInfo, b: BoxInfo) {
    && b == a.(spec := a.spec.(lifecycle := b.spec.lifecycle), createdAt := b.createdAt)
    && SameLifecycle(a.spec.lifecycle, b.spec.lifecycle)
    && (a.createdAt.None? <==> b.createdAt.None?)
    && (a.createdAt.Some? ==> Cut(a.createdAt.value, b.createdAt.value, I64_MIN, I64_MAX))
  }

  lemma LifecycleRoundTrip(l: Lifecycle)
    requires !l.FutureLifecycle?
    ensures EncodeLifecycle(l).Ok? && SameLifecycle(l, DecodeLifecycle(EncodeLifecycle(l).value))
  {
    hide Cut, Millis, DurationFromMillis;
    match l
    case Ephemeral(ttl) => DurationCut(ttl);
    case Persistent(Some(every)) => DurationCut(every);
    case Persistent(None) =>
  }

  /** A box is stored exactly when this version knows every part of it, and is
      read back the same up to the precision of its times. */
  lemma DecodeAfterEncode(info: BoxInfo)
    ensures Encode(info).Ok? <==> Known(info)
    ensures Known(info) ==> SameBox(info, Decode(Encode(info).value, info.id))
  {
    hide Cut, SystemTimeMs, SystemTimeFromMs, SameLifecycle, DecodeLifecycle;
    if info.createdAt.Some? { TimeCut(info.createdAt.value); }
    if !info.spec.lifecycle.FutureLifecycle? { LifecycleRoundTrip(info.spec.lifecycle); }
  }

  /** Storing twice loses nothing more than storing once. */
  lemma StoredBoxIsStable(info: BoxInfo, id: string)
    requires Known(info)
    ensures Encode(info).Ok? && Encode(Decode(Encode(info).value, id)) == Encode(info)
  {
    hide Decode, Encode;
    DecodeAfterEncode(info);
    EncodeAfterDecode(Encode(info).value, id);
  }
}
