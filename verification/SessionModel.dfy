/**
 * The session multiplexer as a state machine: the specification that the
 * SessionManager and TerminalServer classes are proved against.
 *
 * One transition is one handler run to completion, so the clock stands still
 * inside it. A client is identified with its socket, because the server hands
 * out one identifier per socket and never reuses it.
 */
module SessionModel {
  import opened Common

  /** Identifiers are random strings of which only the identity matters. */
  datatype SessionId = SessionId(serial: nat)
  datatype ClientId = ClientId(serial: nat)
  datatype Token = Token(secret: nat)

  datatype Reason = OrphanTimeout | OwnerClosed | ProcessExit | IdleTimeout | Cleanup | SpawnError

  datatype Refusal =
    | NotAllowed | ClientLimit | ServerFull | SpawnFailed
    | SessionNotFound | NotAccepting | JoinFailed | NotMember | NotOwner

  /** Server-to-client messages, as far as routing depends on them. */
  datatype Message =
    | Plain(text: string)
    | Refused(why: Refusal)
    | Spawned(sid: SessionId, resumeToken: Token)
    | Joined(sid: SessionId, history: Option<string>, resume: Option<Token>)
    | Left(sid: SessionId)
    | Listing(sids: set<SessionId>)
    | Data(sid: SessionId, data: string)
    | Exit(sid: SessionId, code: int)
    | SessionClosed(sid: SessionId, reason: Reason)
    | ClientJoined(sid: SessionId, count: nat)
    | ClientLeft(sid: SessionId, count: nat)

  datatype Container = Container(serial: nat)

  /** What a session's shell runs in. */
  datatype Target = Local | Exec(container: Container) | Attach(container: Container)

  datatype SessionType = LocalShell | DockerExec | DockerAttach

  datatype Filter = Filter(sessionType: Option<SessionType>, container: Option<Container>, accepting: Option<bool>)

  datatype Config = Config(
    maxSessionsTotal: nat,
    maxClientsPerSession: nat,
    maxSessionsPerClient: nat,
    maxBufferedOutputBytes: nat,
    orphanTimeout: nat,
    idleTimeout: nat,
    historySize: nat,
    historyEnabled: bool,
    byteLength: Message -> nat)

  /** The minima that the option resolution of both classes enforces. */
  ghost predicate ValidConfig(cfg: Config) {
    1 <= cfg.maxSessionsTotal && 1 <= cfg.maxClientsPerSession &&
    1 <= cfg.maxSessionsPerClient && 1 <= cfg.maxBufferedOutputBytes
  }

  datatype Session = Session(
    clients: set<ClientId>,
    owner: ClientId,
    accepting: bool,
    resumeToken: Token,
    historyEnabled: bool,
    history: string,
    orphanedAt: Option<nat>,
    orphanTimeout: Option<nat>,
    useTmux: bool,
    lastActivity: nat,
    wired: bool,
    target: Target)

  /**
   * `open`: readyState is OPEN. `working`: send does not throw. `sent` is the
   * trace of everything queued on the socket since it connected.
   */
  datatype Socket = Socket(open: bool, working: bool, buffered: nat, sent: seq<Message>)

  /**
   * The trace of one spawned PTY: how often it was killed, everything its data
   * listener has seen, and the clients that created the session or presented
   * its resume token.
   */
  datatype Pty = Pty(kills: nat, output: string, accepting: bool, resumeToken: Token, trusted: set<ClientId>)

  /** One `sessionClosed` event. */
  datatype Closure = Closure(sid: SessionId, reason: Reason)

  datatype State = State(
    cfg: Config,
    now: nat,
    sessions: map<SessionId, Session>,
    clientSessions: map<ClientId, set<SessionId>>,
    timers: map<SessionId, nat>,
    sockets: map<ClientId, Socket>,
    ptys: map<SessionId, Pty>,
    closures: seq<Closure>)

  ghost function Initial(cfg: Config): State {
    State(cfg, 0, map[], map[], map[], map[], map[], [])
  }

  // ---------------------------------------------------------------- primitives

  function Timeout(st: State, s: Session): nat {
    if s.orphanTimeout.Some? then s.orphanTimeout.value else st.cfg.orphanTimeout
  }

  function Remove<K, V>(m: map<K, V>, k: K): map<K, V> {
    m - {k}
  }

  /** Removing `gone` takes the last client away. */
  ghost predicate Empties(s: Session, gone: set<ClientId>) {
    s.clients != {} && s.clients <= gone
  }

  ghost function Shrink(s: Session, gone: set<ClientId>, now: nat): Session {
    s.(clients := s.clients - gone,
       orphanedAt := if Empties(s, gone) then Some(now) else s.orphanedAt)
  }

  ghost function SessionsLeft(st: State, c: ClientId, gone: set<ClientId>, sids: set<SessionId>): set<SessionId>
    requires c in st.clientSessions
  {
    if c in gone then st.clientSessions[c] - sids else st.clientSessions[c]
  }

  ghost function DetachSession(st: State, sid: SessionId, gone: set<ClientId>, sids: set<SessionId>): Session
    requires sid in st.sessions
  {
    if sid in sids then Shrink(st.sessions[sid], gone, st.now) else st.sessions[sid]
  }

  ghost predicate StartsTimer(st: State, sid: SessionId, gone: set<ClientId>, sids: set<SessionId>) {
    sid in sids && sid in st.sessions && Empties(st.sessions[sid], gone) && !st.sessions[sid].useTmux
  }

  ghost predicate HasTimer(st: State, sid: SessionId, gone: set<ClientId>, sids: set<SessionId>) {
    sid in st.timers || StartsTimer(st, sid, gone, sids)
  }

  ghost function DetachTimer(st: State, sid: SessionId, gone: set<ClientId>, sids: set<SessionId>): nat
    requires HasTimer(st, sid, gone, sids)
  {
    if StartsTimer(st, sid, gone, sids) then st.now + Timeout(st, st.sessions[sid]) else st.timers[sid]
  }

  ghost function DetachSessions(st: State, gone: set<ClientId>, sids: set<SessionId>): map<SessionId, Session> {
    map sid | sid in st.sessions :: DetachSession(st, sid, gone, sids)
  }

  ghost function DetachClients(st: State, gone: set<ClientId>, sids: set<SessionId>): map<ClientId, set<SessionId>> {
    map c | c in st.clientSessions && SessionsLeft(st, c, gone, sids) != {} :: SessionsLeft(st, c, gone, sids)
  }

  ghost function DetachTimers(st: State, gone: set<ClientId>, sids: set<SessionId>): map<SessionId, nat> {
    map sid | sid in st.timers.Keys + st.sessions.Keys && HasTimer(st, sid, gone, sids) ::
      DetachTimer(st, sid, gone, sids)
  }

  /** Every client in `gone` leaves every session in `sids`. */
  ghost function Detach(st: State, gone: set<ClientId>, sids: set<SessionId>): State {
    st.(sessions := DetachSessions(st, gone, sids),
        clientSessions := DetachClients(st, gone, sids),
        timers := DetachTimers(st, gone, sids))
  }

  ghost predicate HasRoom(st: State, c: ClientId, m: Message)
    requires c in st.sockets
  {
    st.sockets[c].buffered + st.cfg.byteLength(m) <= st.cfg.maxBufferedOutputBytes
  }

  /** The open targets whose output buffer cannot take the message. */
  ghost function Slow(st: State, m: Message, targets: set<ClientId>): set<ClientId> {
    set c | c in targets && c in st.sockets && st.sockets[c].open && !HasRoom(st, c, m)
  }

  function Queue(k: Socket, m: Message, bytes: nat): Socket {
    k.(buffered := k.buffered + bytes, sent := k.sent + [m])
  }

  /** What sending `m` to `targets` does to one socket. */
  ghost function SocketAfter(st: State, m: Message, targets: set<ClientId>, c: ClientId): Socket
    requires c in st.sockets
  {
    var k := st.sockets[c];
    if c !in targets || !k.open then k
    else if !HasRoom(st, c, m) then k.(open := false)
    else if !k.working then k
    else Queue(k, m, st.cfg.byteLength(m))
  }

  /**
   * Sending `m` to `targets`: every open target with room gets it once, every
   * open target without room is closed and leaves all of its sessions.
   */
  ghost function Deliver(st: State, m: Message, targets: set<ClientId>): State {
    Detach(st, Slow(st, m, targets), st.sessions.Keys).(
      sockets := map c | c in st.sockets :: SocketAfter(st, m, targets, c))
  }

  ghost function Broadcast(st: State, sid: SessionId, m: Message, except: set<ClientId>): State {
    if sid in st.sessions then Deliver(st, m, st.sessions[sid].clients - except) else st
  }

  ghost function Track(clientSessions: map<ClientId, set<SessionId>>, c: ClientId, sid: SessionId)
    : map<ClientId, set<SessionId>>
  {
    clientSessions[c := (if c in clientSessions then clientSessions[c] else {}) + {sid}]
  }

  /** The verdict of the execution-mode switch and of the shell, path and container policies. */
  datatype Policy = Permitted | ModeDisabled | TargetRefused

  datatype SpawnOptions = SpawnOptions(
    target: Target, allowJoin: bool, enableHistory: bool, orphanTimeout: Option<nat>, useTmux: bool)

  ghost predicate CanCreate(st: State, sid: SessionId) {
    |st.sessions| < st.cfg.maxSessionsTotal && sid !in st.sessions
  }

  /** createSession on a freshly spawned PTY, with `c` as owner and only client. */
  ghost function Create(st: State, sid: SessionId, c: ClientId, token: Token, o: SpawnOptions): State {
    var s := Session({c}, c, o.allowJoin, token, o.enableHistory && st.cfg.historyEnabled, "",
                     None, o.orphanTimeout, o.useTmux, st.now, false, o.target);
    st.(sessions := st.sessions[sid := s],
        clientSessions := Track(st.clientSessions, c, sid),
        ptys := st.ptys[sid := Pty(0, "", o.allowJoin, token, {c})])
  }

  ghost function Forget(clientSessions: map<ClientId, set<SessionId>>, members: set<ClientId>, sid: SessionId)
    : map<ClientId, set<SessionId>>
  {
    map c | c in clientSessions && (c in members ==> clientSessions[c] != {sid} && clientSessions[c] != {}) ::
      if c in members then clientSessions[c] - {sid} else clientSessions[c]
  }

  ghost function Close(st: State, sid: SessionId, reason: Reason): State {
    if sid !in st.sessions then st
    else Unregister(st, sid).(ptys := Killed(st.ptys, sid), closures := st.closures + [Closure(sid, reason)])
  }

  ghost function Unregister(st: State, sid: SessionId): State
    requires sid in st.sessions
  {
    st.(sessions := Remove(st.sessions, sid),
        clientSessions := Forget(st.clientSessions, st.sessions[sid].clients, sid),
        timers := Remove(st.timers, sid))
  }

  ghost function Killed(ptys: map<SessionId, Pty>, sid: SessionId): map<SessionId, Pty> {
    if sid in ptys then ptys[sid := ptys[sid].(kills := ptys[sid].kills + 1)] else ptys
  }

  ghost predicate Resumes(s: Session, token: Option<Token>) {
    token == Some(s.resumeToken)
  }

  /** addClient succeeds. */
  ghost predicate Admits(st: State, sid: SessionId, token: Option<Token>) {
    sid in st.sessions &&
    (st.sessions[sid].accepting || Resumes(st.sessions[sid], token)) &&
    |st.sessions[sid].clients| < st.cfg.maxClientsPerSession
  }

  ghost function Add(st: State, sid: SessionId, c: ClientId, token: Option<Token>): State
    requires sid in st.sessions
  {
    var s := st.sessions[sid];
    var resumes := Resumes(s, token);
    st.(sessions := st.sessions[sid := s.(clients := s.clients + {c}, orphanedAt := None,
                                          owner := if resumes then c else s.owner)],
        clientSessions := Track(st.clientSessions, c, sid),
        timers := if s.orphanedAt.Some? then Remove(st.timers, sid) else st.timers,
        ptys := if resumes then Trusted(st.ptys, sid, c) else st.ptys)
  }

  ghost function Trusted(ptys: map<SessionId, Pty>, sid: SessionId, c: ClientId): map<SessionId, Pty> {
    if sid in ptys then ptys[sid := ptys[sid].(trusted := ptys[sid].trusted + {c})] else ptys
  }

  ghost function Touch(st: State, sid: SessionId): State
    requires sid in st.sessions
  {
    st.(sessions := st.sessions[sid := st.sessions[sid].(lastActivity := st.now)])
  }

  /** The bookkeeping of one chunk of PTY output, before it is broadcast. */
  ghost function Record(st: State, sid: SessionId, data: string): State
    requires sid in st.sessions
  {
    var s := st.sessions[sid];
    var history := if s.historyEnabled then LastN(s.history + data, st.cfg.historySize) else s.history;
    st.(sessions := st.sessions[sid := s.(lastActivity := st.now, history := history)],
        ptys := if sid in st.ptys then st.ptys[sid := st.ptys[sid].(output := st.ptys[sid].output + data)] else st.ptys)
  }

  // ------------------------------------------------------------------ handlers

  /** Everything that can happen to the server, one event per handler run. */
  datatype Event =
    | Tick(ms: nat)
    | Connected(client: ClientId)
    | Drained(client: ClientId, bytes: nat)
    | Broken(client: ClientId)
    | Closing(client: ClientId)
    | Disconnected(client: ClientId)
    | Reply(client: ClientId, text: string)
    | Spawn(client: ClientId, sid: SessionId, token: Token, options: SpawnOptions,
            policy: Policy, ptyFails: bool, listenFails: bool)
    | Join(client: ClientId, sid: SessionId, resume: Option<Token>, requestHistory: bool, limit: Option<nat>)
    | Leave(client: ClientId, sid: SessionId)
    | CloseRequest(client: ClientId, sid: SessionId, correlated: bool)
    | List(client: ClientId, filter: Filter)
    | Write(client: ClientId, sid: SessionId)       // input or a resize, which both move the stamp
    | PtyOutput(sid: SessionId, data: string)
    | PtyExit(sid: SessionId, code: int)
    | OrphanTimer(sid: SessionId)
    | IdleSweep(order: seq<SessionId>)
    | Shutdown(order: seq<SessionId>)

  ghost predicate Enumerates(order: seq<SessionId>, sids: set<SessionId>) {
    (forall i, j :: 0 <= i < j < |order| ==> order[i] != order[j]) &&
    (forall sid :: sid in order <==> sid in sids)
  }

  /**
   * What the environment owes the server: identifiers are fresh, requests come
   * over a connection that was once established, timers do not fire early.
   */
  ghost predicate Enabled(st: State, e: Event) {
    match e
    case Connected(c) => c !in st.sockets
    case Drained(c, _) => c in st.sockets
    case Broken(c) => c in st.sockets
    case Closing(c) => c in st.sockets
    case Disconnected(c) => c in st.sockets
    case Reply(c, _) => c in st.sockets
    case Spawn(c, sid, _, _, _, _, _) => c in st.sockets && sid !in st.ptys
    case Join(c, _, _, _, _) => c in st.sockets
    case Leave(c, _) => c in st.sockets
    case CloseRequest(c, _, _) => c in st.sockets
    case List(c, _) => c in st.sockets
    case Write(c, _) => c in st.sockets
    case OrphanTimer(sid) => sid in st.timers && st.timers[sid] <= st.now
    case IdleSweep(order) => Enumerates(order, st.sessions.Keys)
    case Shutdown(order) => Enumerates(order, st.sessions.Keys)
    case _ => true
  }

  ghost function Answer(st: State, c: ClientId, m: Message): State {
    Deliver(st, m, {c})
  }

  ghost predicate AtClientLimit(st: State, c: ClientId) {
    c in st.clientSessions && |st.clientSessions[c]| >= st.cfg.maxSessionsPerClient
  }

  /** tmux only reaches docker exec sessions; a zero timeout means "use the default". */
  function EffectiveOptions(o: SpawnOptions): SpawnOptions {
    o.(useTmux := o.target.Exec? && o.useTmux,
       orphanTimeout := if o.orphanTimeout == Some(0) then None else o.orphanTimeout)
  }

  ghost function Wire(st: State, sid: SessionId): State
    requires sid in st.sessions
  {
    st.(sessions := st.sessions[sid := st.sessions[sid].(wired := true)])
  }

  ghost function SpawnStep(st: State, c: ClientId, sid: SessionId, token: Token, o: SpawnOptions,
                           policy: Policy, ptyFails: bool, listenFails: bool): State {
    if policy.ModeDisabled? then Answer(st, c, Refused(NotAllowed))
    else if AtClientLimit(st, c) then Answer(st, c, Refused(ClientLimit))
    else if |st.sessions| >= st.cfg.maxSessionsTotal then Answer(st, c, Refused(ServerFull))
    else if policy.TargetRefused? then Answer(st, c, Refused(NotAllowed))
    else if ptyFails || sid in st.sessions then Answer(st, c, Refused(SpawnFailed))
    else
      var created := Create(st, sid, c, token, EffectiveOptions(o));
      if !listenFails then Answer(Wire(created, sid), c, Spawned(sid, token))
      else if !o.target.Local? then Answer(created, c, Refused(SpawnFailed))
      else Answer(Close(created, sid, SpawnError), c, Refused(SpawnFailed))
  }

  ghost function HistoryFor(st: State, s: Session, requested: bool, limit: Option<nat>): Option<string> {
    if !(requested && s.historyEnabled) then None
    else Some(if limit.Some? then LastN(s.history, limit.value) else s.history)
  }

  /** The message a successful join is answered with. */
  ghost function Welcome(st: State, sid: SessionId, token: Option<Token>, requested: bool, limit: Option<nat>): Message
    requires sid in st.sessions
  {
    var s := st.sessions[sid];
    Joined(sid, HistoryFor(st, s, requested, limit), if Resumes(s, token) then Some(s.resumeToken) else None)
  }

  ghost function ClientCount(st: State, sid: SessionId): nat {
    if sid in st.sessions then |st.sessions[sid].clients| else 0
  }

  ghost function JoinStep(st: State, c: ClientId, sid: SessionId, token: Option<Token>,
                          requestHistory: bool, limit: Option<nat>): State {
    if sid !in st.sessions then Answer(st, c, Refused(SessionNotFound))
    else
      var s := st.sessions[sid];
      if !s.accepting && !Resumes(s, token) then Answer(st, c, Refused(NotAccepting))
      else if c !in s.clients && AtClientLimit(st, c) then Answer(st, c, Refused(ClientLimit))
      else if !Admits(st, sid, token) then Answer(st, c, Refused(JoinFailed))
      else
        var answered := Answer(Add(st, sid, c, token), c, Welcome(st, sid, token, requestHistory, limit));
        Broadcast(answered, sid, ClientJoined(sid, ClientCount(answered, sid)), {c})
  }

  ghost function LeaveStep(st: State, c: ClientId, sid: SessionId): State {
    if sid !in st.sessions then Answer(st, c, Refused(SessionNotFound))
    else if c !in st.sessions[sid].clients then Answer(st, c, Refused(NotMember))
    else
      var answered := Answer(Detach(st, {c}, {sid}), c, Left(sid));
      Broadcast(answered, sid, ClientLeft(sid, ClientCount(answered, sid)), {})
  }

  ghost function CloseStep(st: State, c: ClientId, sid: SessionId, correlated: bool): State {
    if sid !in st.sessions then Answer(st, c, Refused(SessionNotFound))
    else if st.sessions[sid].owner != c then Answer(st, c, Refused(NotOwner))
    else
      var m := SessionClosed(sid, OwnerClosed);
      var told := if correlated then Answer(Broadcast(st, sid, m, {c}), c, m) else Broadcast(st, sid, m, {});
      Close(told, sid, OwnerClosed)
  }

  function TypeOf(t: Target): SessionType {
    match t
    case Local => LocalShell
    case Exec(_) => DockerExec
    case Attach(_) => DockerAttach
  }

  function ContainerOf(t: Target): Option<Container> {
    if t.Local? then None else Some(t.container)
  }

  predicate Passes(s: Session, f: Filter) {
    (f.sessionType.Some? ==> TypeOf(s.target) == f.sessionType.value) &&
    (f.container.Some? ==> ContainerOf(s.target) == f.container) &&
    (f.accepting.Some? ==> s.accepting == f.accepting.value)
  }

  predicate Visible(s: Session, c: ClientId, f: Filter) {
    Passes(s, f) && (s.accepting || s.owner == c || c in s.clients)
  }

  ghost function ListStep(st: State, c: ClientId, f: Filter): State {
    Answer(st, c, Listing(set sid | sid in st.sessions && Visible(st.sessions[sid], c, f)))
  }

  ghost function WriteStep(st: State, c: ClientId, sid: SessionId): State {
    if sid !in st.sessions then Answer(st, c, Refused(SessionNotFound))
    else if c !in st.sessions[sid].clients then Answer(st, c, Refused(NotMember))
    else Touch(st, sid)
  }

  ghost predicate Wired(st: State, sid: SessionId) {
    sid in st.sessions && st.sessions[sid].wired
  }

  ghost function OutputStep(st: State, sid: SessionId, data: string): State {
    if Wired(st, sid) then Broadcast(Record(st, sid, data), sid, Data(sid, data), {}) else st
  }

  /** The farewell both an exiting PTY and the idle sweep give a session. */
  ghost function Farewell(st: State, sid: SessionId, code: int, reason: Reason): State {
    Close(Broadcast(Broadcast(st, sid, Exit(sid, code), {}), sid, SessionClosed(sid, reason), {}), sid, reason)
  }

  ghost function ExitStep(st: State, sid: SessionId, code: int): State {
    if Wired(st, sid) then Farewell(st, sid, code, ProcessExit) else st
  }

  ghost function TimerStep(st: State, sid: SessionId): State {
    if sid in st.sessions && st.sessions[sid].clients == {} then Close(st, sid, OrphanTimeout) else st
  }

  ghost predicate Idle(st: State, sid: SessionId) {
    sid in st.sessions && st.now > st.sessions[sid].lastActivity + st.cfg.idleTimeout
  }

  ghost function Sweep(st: State, order: seq<SessionId>): State {
    if order == [] then st
    else
      var before := Sweep(st, order[..|order| - 1]);
      var sid := order[|order| - 1];
      if Idle(before, sid) then Farewell(before, sid, -1, IdleTimeout) else before
  }

  ghost function SweepStep(st: State, order: seq<SessionId>): State {
    if st.cfg.idleTimeout == 0 then st else Sweep(st, order)
  }

  ghost function DisconnectStep(st: State, c: ClientId): State
    requires c in st.sockets
  {
    Detach(st.(sockets := st.sockets[c := st.sockets[c].(open := false)]), {c}, st.sessions.Keys)
  }

  ghost function CloseAll(st: State, order: seq<SessionId>): State {
    if order == [] then st
    else Close(CloseAll(st, order[..|order| - 1]), order[|order| - 1], Cleanup)
  }

  ghost function ShutdownStep(st: State, order: seq<SessionId>): State {
    var closed := CloseAll(st.(timers := map[]), order);
    closed.(clientSessions := map[], sockets := map c | c in st.sockets :: st.sockets[c].(open := false))
  }

  ghost function Step(st: State, e: Event): State
    requires Enabled(st, e)
  {
    match e
    case Tick(ms) => st.(now := st.now + ms)
    case Connected(c) => st.(sockets := st.sockets[c := Socket(true, true, 0, [])])
    case Drained(c, bytes) =>
      var k := st.sockets[c];
      st.(sockets := st.sockets[c := k.(buffered := k.buffered - Min(bytes, k.buffered))])
    case Broken(c) => st.(sockets := st.sockets[c := st.sockets[c].(working := false)])
    case Closing(c) => st.(sockets := st.sockets[c := st.sockets[c].(open := false)])
    case Disconnected(c) => DisconnectStep(st, c)
    case Reply(c, text) => Answer(st, c, Plain(text))
    case Spawn(c, sid, token, o, policy, ptyFails, listenFails) =>
      SpawnStep(st, c, sid, token, o, policy, ptyFails, listenFails)
    case Join(c, sid, token, requestHistory, limit) => JoinStep(st, c, sid, token, requestHistory, limit)
    case Leave(c, sid) => LeaveStep(st, c, sid)
    case CloseRequest(c, sid, correlated) => CloseStep(st, c, sid, correlated)
    case List(c, filter) => ListStep(st, c, filter)
    case Write(c, sid) => WriteStep(st, c, sid)
    case PtyOutput(sid, data) => OutputStep(st, sid, data)
    case PtyExit(sid, code) => ExitStep(st, sid, code)
    case OrphanTimer(sid) => TimerStep(st, sid)
    case IdleSweep(order) => SweepStep(st, order)
    case Shutdown(order) => ShutdownStep(st, order)
  }
}
