/**
 The tasks that serve one session, as a state machine. A session is a handful of
 concurrent tasks: the connect handshake, then a reader that turns what a local
 socket delivers into Data frames, a writer that turns received frames into
 socket writes, and the relay task that ends them. Every step below is one of
 those tasks moving from one await point to the next; what sockets and clocks do
 is the choice of step and its arguments.
 */
module Sessions {
  import opened Basics
  import opened Frames
  import opened ConnectPayload
  import opened Traces

  /** The buffer a relay chunks into. */
  const READ_SIZE: nat := 4096

  /** A UDP relay puts an address header of at most 22 bytes before what it read. */
  const UDP_HEADER: nat := 22

  datatype Phase =
    | Allocated  // client: has an id, not yet in the sessions map
    | Registered // client: in the sessions map, SOCKS5 handshake running
    | Waiting    // client: Connect sent, waiting for the verdict
    | Deciding   // server: Connect received, opening the socket
    | Relaying   // both relay directions running
    | Closing    // relay over, Close not yet accepted by the queue
    | Dropping   // about to call drop_session
    | Done

  datatype Reader =
    | Off
    | Reading(held: Option<Bytes>) // held: read from the socket, waiting for room in the queue
    | Stopped

  datatype Session = Session(
    phase: Phase,
    udp: bool,
    inbox: seq<Frame>,      // every frame ever put into this session's channel
    taken: nat,             // how many of them the session has received
    reader: Reader,
    writing: bool,
    via: Option<nat>,       // history: the link the frames in inbox came over
    openedAt: nat,          // history: value of taken when the relay started
    asked: Option<Request>, // history: the request the client sent, or the one the server opened the session for
    refusal: Option<Bytes>, // history: the reason the server gave for refusing
    dropped: bool,          // history: it has called drop_session
    chunks: seq<Bytes>,     // history: what the reader read, read by read
    handled: seq<Bytes>,    // history: payloads the writer wrote or, of datagrams, dropped
    written: seq<Bytes>,    // history: those it wrote in full
    partial: Bytes          // history: what a failed last write still wrote
  )

  /** A session at the client: its id has been allocated. */
  function NewSession(udp: bool): Session {
    Session(Allocated, udp, [], 0, Off, false, None, 0, None, None, false, [], [], [], [])
  }

  /** A session at the server, opened for a request that came over a link. */
  function ServerSession(request: Request, link: nat): Session {
    Session(Deciding, request.udp, [], 0, Off, false, Some(link), 0, Some(request), None, false, [], [], [], [])
  }

  /**
   Whether the receiving half of the channel still exists: the session holds it until
   its task returns, or until the writer it was handed to is over.
   */
  predicate Listening(ss: Session) {
    ss.writing || (ss.reader.Off? && !ss.phase.Done?)
  }

  /** What becomes of a payload; only a datagram may be dropped, and it never goes out in part. */
  datatype WriteResult = Whole | Skipped | Fails(after: nat)

  function ReadLimit(udp: bool): nat {
    if udp then UDP_HEADER + READ_SIZE else READ_SIZE
  }

  datatype TaskStep =
    | Abandon                                // SOCKS5 handshake failed, or the command is not supported
    | SendConnect(host: Bytes, port: u16)
    | AwaitFrame(next: Phase)                // the wait loop receives one frame
    | GiveUp(next: Phase)                    // timeout, or the channel was closed
    | Accept                                 // target reached: ConnectOk
    | Refuse(reason: Bytes)                  // filtered or unreachable: ConnectErr
    | Read(chunk: Bytes)
    | SendData
    | StopReader                             // end of file, read error or abort
    | Write(result: WriteResult)             // the writer receives one frame
    | StopWriter                             // channel closed, or abort
    | EndRelay
    | SendClose
    | DropRegistration

  /** Where a failed connect leaves the session: TCP clients do not drop the registration. */
  predicate FailurePhase(udp: bool, next: Phase) {
    next.Done? || (udp && next.Dropping?)
  }

  predicate CanHappen(udp: bool, f: Frame, result: WriteResult) {
    match result
    case Whole => true
    case Skipped => udp && f.frameType.Data?
    case Fails(after) => f.frameType.Data? && after <= (if udp then 0 else |f.payload|)
  }

  predicate TaskEnabled(server: bool, ss: Session, registered: bool, step: TaskStep) {
    match step
    case Abandon => ss.phase.Registered?
    case SendConnect(host, _) => ss.phase.Registered? && ValidUtf8(host) && |host| + 4 <= MAX_PAYLOAD
    case AwaitFrame(next) =>
      && ss.phase.Waiting? && ss.taken < |ss.inbox|
      && (match ss.inbox[ss.taken].frameType
          case ConnectOk => next.Relaying? || next.Closing? || (ss.udp && next.Done?)
          case ConnectErr => FailurePhase(ss.udp, next)
          case _ => next.Waiting?)
    case GiveUp(next) => ss.phase.Waiting? && FailurePhase(ss.udp, next)
    case Accept => ss.phase.Deciding?
    case Refuse(reason) => ss.phase.Deciding? && |reason| <= MAX_PAYLOAD
    case Read(chunk) => ss.reader == Reading(None) && 0 < |chunk| <= ReadLimit(ss.udp)
    case SendData => ss.reader.Reading? && ss.reader.held.Some?
    case StopReader => ss.reader.Reading? && (ss.reader.held.None? || !ss.phase.Relaying?)
    case Write(result) => ss.writing && ss.taken < |ss.inbox| && CanHappen(ss.udp, ss.inbox[ss.taken], result)
    case StopWriter =>
      ss.writing && (!ss.phase.Relaying? || (!registered && ss.taken == |ss.inbox|))
    case EndRelay => ss.phase.Relaying? && OneSideOver(server, ss)
    case SendClose => ss.phase.Closing?
    case DropRegistration => ss.phase.Dropping?
  }

  /** What ends a relay: either direction; at a UDP client the accompanying TCP connection too. */
  predicate OneSideOver(server: bool, ss: Session) {
    ss.reader.Stopped? || !ss.writing || (ss.udp && !server)
  }

  function StartRelay(ss: Session): Session {
    ss.(phase := Relaying, reader := Reading(None), writing := true, openedAt := ss.taken)
  }

  function AfterWrite(ss: Session, result: WriteResult): Session
    requires ss.taken < |ss.inbox| && CanHappen(ss.udp, ss.inbox[ss.taken], result)
  {
    var f := ss.inbox[ss.taken];
    var next := ss.(taken := ss.taken + 1);
    match f.frameType
    case Data =>
      (match result
       case Whole => next.(handled := ss.handled + [f.payload], written := ss.written + [f.payload])
       case Skipped => next.(handled := ss.handled + [f.payload])
       case Fails(after) => next.(writing := false, partial := f.payload[..after]))
    case Close => next.(writing := false)
    case ConnectErr => if ss.udp then next else next.(writing := false)
    case _ => next
  }

  function TaskNext(server: bool, ss: Session, registered: bool, step: TaskStep): Session
    requires TaskEnabled(server, ss, registered, step)
  {
    match step
    case Abandon => ss.(phase := Done)
    case SendConnect(host, port) => ss.(phase := Waiting, asked := Some(Request(host, port, ss.udp)))
    case AwaitFrame(next) =>
      var after := ss.(taken := ss.taken + 1);
      if next.Relaying? then StartRelay(after) else after.(phase := next)
    case GiveUp(next) => ss.(phase := next)
    case Accept => StartRelay(ss)
    case Refuse(reason) => ss.(phase := Dropping, refusal := Some(reason))
    case Read(chunk) => ss.(reader := Reading(Some(chunk)), chunks := ss.chunks + [chunk])
    case SendData => ss.(reader := Reading(None))
    case StopReader => ss.(reader := Stopped)
    case Write(result) => AfterWrite(ss, result)
    case StopWriter => ss.(writing := false)
    case EndRelay => ss.(phase := Closing)
    case SendClose => ss.(phase := Dropping)
    case DropRegistration => ss.(phase := Done, dropped := true)
  }

  /** The frame a step puts into the queue, if it does. */
  function Emits(sid: u32, ss: Session, step: TaskStep): Option<Frame> {
    match step
    case SendConnect(host, port) => Some(Frame(Connect, sid, EncodeRequest(Request(host, port, ss.udp))))
    case Accept => Some(Frame(ConnectOk, sid, []))
    case Refuse(reason) => Some(Frame(ConnectErr, sid, reason))
    case SendData =>
      if ss.reader.Reading? && ss.reader.held.Some? then Some(Frame(Data, sid, ss.reader.held.value)) else None
    case SendClose => Some(Frame(Close, sid, []))
    case _ => None
  }

  // ---------------------------------------------------------------------------
  // What holds of a session at all times
  // ---------------------------------------------------------------------------

  /** What a session puts on the wire after its opening frame: Data, and an empty Close at most once. */
  ghost predicate Script(t: seq<Frame>, opener: FrameType) {
    && (t != [] ==> t[0].frameType == opener)
    && (forall i | 1 <= i < |t| :: t[i].frameType.Data? || (t[i].frameType.Close? && t[i].payload == []))
    && Closes(t) <= 1
  }

  function Opener(server: bool): FrameType {
    if server then ConnectOk else Connect
  }

  ghost predicate Refused(t: seq<Frame>) {
    |t| == 1 && t[0].frameType.ConnectErr?
  }

  /** How what a session enqueues begins: with its request, or with its verdict. */
  ghost predicate Begins(server: bool, ss: Session, t: seq<Frame>) {
    if !server then
      match ss.asked
      case None => t == [] && ss.reader.Off?
      case Some(request) =>
        && t != [] && t[0].frameType.Connect? && t[0].payload == EncodeRequest(request)
        && request.udp == ss.udp && ValidUtf8(request.host)
    else if ss.reader.Off? then
      match ss.refusal
      case None => t == []
      case Some(reason) => Refused(t) && t[0].payload == reason
    else
      t != [] && t[0].frameType.ConnectOk? && t[0].payload == [] && ss.refusal == None
  }

  /**
   Everything a session ever enqueues, in order, against the phase it is in. A session
   that has relayed and is past closing has sent its Close, and one that the server
   refused has sent its ConnectErr.
   */
  ghost predicate ScriptInv(server: bool, ss: Session, t: seq<Frame>) {
    && (Script(t, Opener(server)) || (server && Refused(t)))
    && Begins(server, ss, t)
    && (if ss.reader.Off? then !ss.writing else t != [] && t[0].frameType == Opener(server))
    && (ss.dropped ==> ss.phase.Done?)
    && (match ss.phase
        case Allocated => !server && t == [] && ss.reader.Off? && ss.inbox == []
        case Registered => !server && t == [] && ss.reader.Off? && ss.taken == 0
        case Waiting => !server && |t| == 1 && t[0].frameType.Connect? && Closes(t) == 0 && ss.reader.Off?
        case Deciding => server && t == [] && ss.reader.Off? && ss.taken == 0
        case Relaying => t != [] && t[0].frameType == Opener(server) && Closes(t) == 0 && !ss.reader.Off?
        case Closing => t != [] && t[0].frameType == Opener(server) && Closes(t) == 0 && Over(server, ss)
        case Dropping => Over(server, ss) && Ended(server, ss, t)
        case Done =>
          && Over(server, ss) && (server || !ss.reader.Off? ==> ss.dropped)
          && (if ss.dropped then Ended(server, ss, t) else Closes(t) == 0))
  }

  ghost predicate Over(server: bool, ss: Session) {
    !ss.reader.Off? ==> OneSideOver(server, ss)
  }

  /**
   What a session has said before it drops its registration: Close once if it relayed,
   ConnectErr if the server refused. A client that never relayed drops its registration
   after Close, or, with UDP only, after a failed connect.
   */
  ghost predicate Ended(server: bool, ss: Session, t: seq<Frame>) {
    if !ss.reader.Off? then Closes(t) == 1
    else if server then Refused(t)
    else t != [] && (ss.udp || Closes(t) == 1)
  }

  /** The Data frames enqueued so far are what was read, except for a chunk still held, or dropped by an abort. */
  ghost predicate ReaderInv(reader: Reader, relaying: bool, chunks: seq<Bytes>, sent: seq<Bytes>) {
    match reader
    case Off => chunks == [] && sent == []
    case Reading(None) => chunks == sent
    case Reading(Some(c)) => chunks == sent + [c]
    case Stopped => if relaying then sent == chunks else sent <= chunks && |chunks| <= |sent| + 1
  }

  ghost predicate ChunkSizes(ss: Session) {
    && (forall i | 0 <= i < |ss.chunks| :: 0 < |ss.chunks[i]| <= ReadLimit(ss.udp))
    && (ss.reader.Reading? && ss.reader.held.Some? ==> 0 < |ss.reader.held.value| <= ReadLimit(ss.udp))
  }

  /** The first n frames are no verdicts. */
  predicate Undecided(frames: seq<Frame>, n: nat)
    requires n <= |frames|
  {
    forall i | 0 <= i < n :: !IsVerdict(frames[i])
  }

  /** The first n frames have no ConnectOk among them. */
  predicate NoneOk(frames: seq<Frame>, n: nat)
    requires n <= |frames|
  {
    forall i | 0 <= i < n :: !frames[i].frameType.ConnectOk?
  }

  /**
   The wait loop skipped only frames that are not verdicts, and a relay starts right
   after a ConnectOk; a TCP client that has been told ConnectOk does not just go away.
   */
  ghost predicate WaitInv(server: bool, ss: Session) {
    && ss.openedAt <= ss.taken <= |ss.inbox|
    && (ss.phase.Waiting? ==> Undecided(ss.inbox, ss.taken))
    && (server ==> ss.openedAt == 0)
    && (!server && ss.reader.Off? && ss.phase.Closing? ==> ss.taken > 0 && ss.inbox[ss.taken - 1].frameType.ConnectOk?)
    && (!server && !ss.udp && ss.reader.Off? && ss.phase.Done? && !ss.dropped ==>
          NoneOk(ss.inbox, ss.taken))
    && (!server && !ss.reader.Off? ==>
          && 1 <= ss.openedAt
          && ss.inbox[ss.openedAt - 1].frameType.ConnectOk?
          && Undecided(ss.inbox, ss.openedAt - 1))
  }

  /** What was written is what was received since the relay started, up to a failed last write and dropped datagrams. */
  ghost predicate WriterInv(ss: Session)
    requires ss.openedAt <= ss.taken <= |ss.inbox|
  {
    var due := Payloads(ss.inbox[ss.openedAt..ss.taken]);
    && (ss.reader.Off? ==> ss.handled == [] && ss.partial == [])
    && Subsequence(ss.written, ss.handled)
    && (if ss.udp then ss.partial == [] else ss.written == ss.handled)
    && ss.handled <= due
    && (ss.writing ==> ss.handled == due && ss.partial == [])
    && (ss.partial != [] ==> |ss.handled| < |due| && ss.partial <= due[|ss.handled|])
  }

  /** The frames that end the writer: Close, and for TCP ConnectErr. */
  predicate EndsWriting(udp: bool, f: Frame) {
    f.frameType.Close? || (f.frameType.ConnectErr? && !udp)
  }

  /**
   While the relay runs, the writer goes on until it has taken a frame that ends it, or
   a write has failed, or the registration is gone and the channel is empty.
   */
  ghost predicate WriterEnd(ss: Session, registered: bool)
    requires ss.openedAt <= ss.taken <= |ss.inbox|
  {
    && (ss.writing ==> forall i | ss.openedAt <= i < ss.taken :: !EndsWriting(ss.udp, ss.inbox[i]))
    && (ss.phase.Relaying? && !ss.writing ==>
          || (ss.openedAt < ss.taken && EndsWriting(ss.udp, ss.inbox[ss.taken - 1]))
          || |ss.handled| < |Payloads(ss.inbox[ss.openedAt..ss.taken])|
          || (!registered && ss.taken == |ss.inbox|))
  }

  ghost predicate SessionInv(server: bool, ss: Session, t: seq<Frame>) {
    && ScriptInv(server, ss, t)
    && ReaderInv(ss.reader, ss.phase.Relaying?, ss.chunks, Payloads(t))
    && ChunkSizes(ss)
    && WaitInv(server, ss)
    && WriterInv(ss)
  }

  /** The bytes a session has written to its socket. */
  function Written(ss: Session): Bytes {
    Flatten(ss.written) + ss.partial
  }

  lemma NoPayloads()
    ensures Payloads([]) == []
  {
  }

  lemma SliceGrows(frames: seq<Frame>, lo: nat, hi: nat)
    requires lo <= hi < |frames|
    ensures Payloads(frames[lo..hi + 1]) ==
            Payloads(frames[lo..hi]) + (if frames[hi].frameType.Data? then [frames[hi].payload] else [])
  {
    Append(frames[lo..hi], frames[hi], 0);
    assert frames[lo..hi + 1] == frames[lo..hi] + [frames[hi]];
  }

  /** The frames enqueued by a session once it has taken a step. */
  function TraceAfter(sid: u32, ss: Session, step: TaskStep, t: seq<Frame>): seq<Frame> {
    match Emits(sid, ss, step)
    case None => t
    case Some(f) => t + [f]
  }

  lemma ScriptOpens(f: Frame, opener: FrameType)
    requires f.frameType == opener && !opener.Close?
    ensures Script([f], opener) && Closes([f]) == 0
  {
    assert [f][..0] == [];
  }

  lemma ScriptContinues(t: seq<Frame>, f: Frame, opener: FrameType)
    requires t != [] && Script(t, opener) && f.frameType in {Data, Close} && (f.frameType.Close? ==> f.payload == [])
    requires f.frameType.Close? ==> Closes(t) == 0
    ensures Script(t + [f], opener)
    ensures Closes(t + [f]) == Closes(t) + (if f.frameType.Close? then 1 else 0)
  {
    Append(t, f, 0);
  }

  lemma NoCloses()
    ensures Closes([]) == 0
  {
  }

  /** Steps of reader and writer: the phase stays, and neither direction comes back. */
  lemma RelayStepKeepsScript(server: bool, sid: u32, ss: Session, registered: bool, step: TaskStep, t: seq<Frame>)
    requires ScriptInv(server, ss, t) && TaskEnabled(server, ss, registered, step)
    requires step.Read? || step.StopReader? || step.Write? || step.StopWriter?
    ensures ScriptInv(server, TaskNext(server, ss, registered, step), t)
  {
    hide Script, Closes, EncodeRequest, ValidUtf8;
  }

  /** A step that enqueues nothing: only the phase moves on. */
  lemma SilentStepKeepsScript(server: bool, sid: u32, ss: Session, registered: bool, step: TaskStep, t: seq<Frame>)
    requires ScriptInv(server, ss, t) && TaskEnabled(server, ss, registered, step)
    requires ReaderInv(ss.reader, ss.phase.Relaying?, ss.chunks, Payloads(t))
    requires Emits(sid, ss, step) == None
    ensures ScriptInv(server, TaskNext(server, ss, registered, step), t)
  {
    hide Script, Closes, Payloads, EncodeRequest, ValidUtf8, CanHappen, ReaderInv;
    NoCloses();
    if step.Read? || step.StopReader? || step.Write? || step.StopWriter? {
      hide ScriptInv, TaskNext, TaskEnabled;
      RelayStepKeepsScript(server, sid, ss, registered, step, t);
    }
  }

  /** A step that opens the session: request or verdict. */
  lemma OpeningStepKeepsScript(server: bool, sid: u32, ss: Session, registered: bool, step: TaskStep, t: seq<Frame>)
    requires ScriptInv(server, ss, t) && TaskEnabled(server, ss, registered, step)
    requires step.SendConnect? || step.Accept? || step.Refuse?
    ensures ScriptInv(server, TaskNext(server, ss, registered, step), TraceAfter(sid, ss, step, t))
  {
    hide Script, Closes, Payloads, EncodeRequest, ValidUtf8;
    var f := Emits(sid, ss, step).value;
    assert t == [] && t + [f] == [f];
    ScriptOpens(f, f.frameType);
  }

  lemma LaterStepKeepsScript(server: bool, sid: u32, ss: Session, registered: bool, step: TaskStep, t: seq<Frame>)
    requires ScriptInv(server, ss, t) && TaskEnabled(server, ss, registered, step)
    requires ReaderInv(ss.reader, ss.phase.Relaying?, ss.chunks, Payloads(t))
    requires step.SendData? || step.SendClose?
    ensures ScriptInv(server, TaskNext(server, ss, registered, step), TraceAfter(sid, ss, step, t))
  {
    hide Script, Closes, Payloads, EncodeRequest, ValidUtf8;
    ScriptContinues(t, Emits(sid, ss, step).value, Opener(server));
  }

  lemma StepKeepsScript(server: bool, sid: u32, ss: Session, registered: bool, step: TaskStep, t: seq<Frame>)
    requires ScriptInv(server, ss, t) && TaskEnabled(server, ss, registered, step)
    requires ReaderInv(ss.reader, ss.phase.Relaying?, ss.chunks, Payloads(t))
    ensures ScriptInv(server, TaskNext(server, ss, registered, step), TraceAfter(sid, ss, step, t))
  {
    hide ScriptInv, ReaderInv, TaskNext, TaskEnabled, Payloads;
    if step.SendConnect? || step.Accept? || step.Refuse? {
      OpeningStepKeepsScript(server, sid, ss, registered, step, t);
    } else if step.SendClose? || step.SendData? {
      LaterStepKeepsScript(server, sid, ss, registered, step, t);
    } else {
      SilentStepKeepsScript(server, sid, ss, registered, step, t);
    }
  }

  /** A relay starts with a reader that has not read yet. */
  lemma ReaderStartsOff(server: bool, ss: Session, t: seq<Frame>)
    requires ScriptInv(server, ss, t)
    ensures ss.phase.Waiting? || ss.phase.Deciding? ==> ss.reader.Off?
  {
    hide Script, Closes, EncodeRequest, ValidUtf8;
  }

  lemma StopKeepsReader(server: bool, ss: Session, registered: bool, sent: seq<Bytes>)
    requires ReaderInv(ss.reader, ss.phase.Relaying?, ss.chunks, sent) && ChunkSizes(ss)
    requires TaskEnabled(server, ss, registered, StopReader)
    ensures var ss' := TaskNext(server, ss, registered, StopReader);
            ReaderInv(ss'.reader, ss'.phase.Relaying?, ss'.chunks, sent) && ChunkSizes(ss')
  {
  }

  /** What the steps that do not concern the reader leave alone; two of them start it. */
  lemma OtherStepReads(server: bool, ss: Session, registered: bool, step: TaskStep)
    requires TaskEnabled(server, ss, registered, step) && !step.Read? && !step.SendData? && !step.StopReader?
    ensures var ss' := TaskNext(server, ss, registered, step);
            && ss'.chunks == ss.chunks && ss'.udp == ss.udp
            && (|| (ss'.reader == ss.reader && (ss'.phase.Relaying? ==> ss.phase.Relaying?))
                || (ss'.reader == Reading(None) && (ss.phase.Waiting? || ss.phase.Deciding?)))
  {
    hide EncodeRequest, ValidUtf8, CanHappen;
  }

  /** A step that neither reads nor enqueues Data; it may start or stop the reader. */
  lemma OtherStepKeepsReader(server: bool, ss: Session, registered: bool, step: TaskStep, sent: seq<Bytes>)
    requires ReaderInv(ss.reader, ss.phase.Relaying?, ss.chunks, sent) && ChunkSizes(ss)
    requires TaskEnabled(server, ss, registered, step) && !step.Read? && !step.SendData?
    requires ss.phase.Waiting? || ss.phase.Deciding? ==> ss.reader.Off?
    ensures var ss' := TaskNext(server, ss, registered, step);
            ReaderInv(ss'.reader, ss'.phase.Relaying?, ss'.chunks, sent) && ChunkSizes(ss')
  {
    hide TaskNext, TaskEnabled;
    if step.StopReader? {
      StopKeepsReader(server, ss, registered, sent);
    } else {
      OtherStepReads(server, ss, registered, step);
    }
  }

  lemma DataStepKeepsReader(server: bool, ss: Session, registered: bool, step: TaskStep, sent: seq<Bytes>)
    requires ReaderInv(ss.reader, ss.phase.Relaying?, ss.chunks, sent) && ChunkSizes(ss)
    requires TaskEnabled(server, ss, registered, step) && (step.Read? || step.SendData?)
    ensures var ss' := TaskNext(server, ss, registered, step);
            && ReaderInv(ss'.reader, ss'.phase.Relaying?, ss'.chunks,
                         if step.SendData? then sent + [ss.reader.held.value] else sent)
            && ChunkSizes(ss')
  {
  }

  lemma StepKeepsReader(server: bool, sid: u32, ss: Session, registered: bool, step: TaskStep, t: seq<Frame>)
    requires ScriptInv(server, ss, t) && ReaderInv(ss.reader, ss.phase.Relaying?, ss.chunks, Payloads(t)) && ChunkSizes(ss)
    requires TaskEnabled(server, ss, registered, step)
    ensures var ss' := TaskNext(server, ss, registered, step);
            && ReaderInv(ss'.reader, ss'.phase.Relaying?, ss'.chunks, Payloads(TraceAfter(sid, ss, step, t)))
            && ChunkSizes(ss')
  {
    PayloadsAfter(server, sid, ss, registered, step, t);
    if step.Read? || step.SendData? {
      DataStepKeepsReader(server, ss, registered, step, Payloads(t));
    } else {
      ReaderStartsOff(server, ss, t);
      OtherStepKeepsReader(server, ss, registered, step, Payloads(t));
    }
    hide Payloads, ScriptInv, ReaderInv, TaskNext, TaskEnabled, ChunkSizes, TraceAfter;
  }

  lemma PayloadsAfter(server: bool, sid: u32, ss: Session, registered: bool, step: TaskStep, t: seq<Frame>)
    requires TaskEnabled(server, ss, registered, step)
    ensures Payloads(TraceAfter(sid, ss, step, t)) ==
            if step.SendData? then Payloads(t) + [ss.reader.held.value] else Payloads(t)
  {
    hide Payloads, EncodeRequest, ValidUtf8, CanHappen;
    if Emits(sid, ss, step).Some? {
      Append(t, Emits(sid, ss, step).value, sid);
      assert Payloads(t) + [] == Payloads(t);
    }
  }

  lemma AwaitKeepsWait(server: bool, ss: Session, registered: bool, step: TaskStep, t: seq<Frame>)
    requires ScriptInv(server, ss, t) && WaitInv(server, ss)
    requires TaskEnabled(server, ss, registered, step) && step.AwaitFrame?
    ensures WaitInv(server, TaskNext(server, ss, registered, step))
  {
    hide Closes, Script, EncodeRequest, ValidUtf8, Begins, Ended, Over, CanHappen;
  }

  lemma StepKeepsWait(server: bool, ss: Session, registered: bool, step: TaskStep, t: seq<Frame>)
    requires ScriptInv(server, ss, t) && WaitInv(server, ss)
    requires TaskEnabled(server, ss, registered, step)
    ensures WaitInv(server, TaskNext(server, ss, registered, step))
  {
    hide Closes, Script, EncodeRequest, ValidUtf8, Begins, Ended, Over, CanHappen, Undecided;
    if step.AwaitFrame? {
      hide WaitInv, TaskNext, TaskEnabled, ScriptInv;
      AwaitKeepsWait(server, ss, registered, step, t);
    } else if step.GiveUp? {
      UndecidedHasNoOk(ss.inbox, ss.taken);
    } else if step.SendConnect? {
      UndecidedHasNoOk(ss.inbox, 0);
    }
  }

  lemma UndecidedHasNoOk(frames: seq<Frame>, n: nat)
    requires n <= |frames|
    ensures Undecided(frames, 0) && (Undecided(frames, n) ==> NoneOk(frames, n))
  {
  }

  lemma WriterIsCurrent(ss: Session)
    requires ss.openedAt <= ss.taken <= |ss.inbox| && WriterInv(ss) && ss.writing
    ensures ss.handled == Payloads(ss.inbox[ss.openedAt..ss.taken]) && ss.partial == []
    ensures Subsequence(ss.written, ss.handled) && (!ss.udp ==> ss.written == ss.handled)
  {
    hide Payloads, Subsequence;
  }

  lemma WriterFrom(ss: Session, due: seq<Bytes>)
    requires ss.openedAt <= ss.taken <= |ss.inbox| && due == Payloads(ss.inbox[ss.openedAt..ss.taken])
    requires Subsequence(ss.written, ss.handled) && !ss.reader.Off?
    requires if ss.udp then ss.partial == [] else ss.written == ss.handled
    requires || (ss.handled == due && ss.partial == [])
             || (!ss.writing && ss.handled < due && ss.partial <= due[|ss.handled|])
    ensures WriterInv(ss)
  {
    hide Payloads, Subsequence;
  }

  lemma DataKeepsWriter(ss: Session, result: WriteResult, due: seq<Bytes>)
    requires ss.openedAt <= ss.taken < |ss.inbox| && ss.inbox[ss.taken].frameType.Data? && !ss.reader.Off?
    requires CanHappen(ss.udp, ss.inbox[ss.taken], result)
    requires ss.handled == due && ss.partial == [] && (!ss.udp ==> ss.written == due)
    requires Subsequence(ss.written, due)
    requires due + [ss.inbox[ss.taken].payload] == Payloads(ss.inbox[ss.openedAt..ss.taken + 1])
    ensures WriterInv(AfterWrite(ss, result))
  {
    hide Payloads, Subsequence, WriterInv;
    var payload, after := ss.inbox[ss.taken].payload, AfterWrite(ss, result);
    SubsequenceGrows(ss.written, due, payload);
    match result {
      case Whole => WriterFrom(after, due + [payload]);
      case Skipped => WriterFrom(after, due + [payload]);
      case Fails(n) =>
        assert after.partial == payload[..n] && (due + [payload])[|due|] == payload;
        WriterFrom(after, due + [payload]);
    }
  }

  lemma OtherKeepsWriter(ss: Session, result: WriteResult, due: seq<Bytes>)
    requires ss.openedAt <= ss.taken < |ss.inbox| && !ss.inbox[ss.taken].frameType.Data? && !ss.reader.Off?
    requires CanHappen(ss.udp, ss.inbox[ss.taken], result)
    requires ss.handled == due && ss.partial == [] && (!ss.udp ==> ss.written == due)
    requires Subsequence(ss.written, due)
    requires due == Payloads(ss.inbox[ss.openedAt..ss.taken + 1])
    ensures WriterInv(AfterWrite(ss, result))
  {
    hide Payloads, Subsequence, WriterInv;
    WriterFrom(AfterWrite(ss, result), due);
  }

  lemma WriteKeepsWriter(ss: Session, result: WriteResult)
    requires ss.openedAt <= ss.taken < |ss.inbox| && WriterInv(ss)
    requires ss.writing && !ss.reader.Off? && CanHappen(ss.udp, ss.inbox[ss.taken], result)
    ensures WriterInv(AfterWrite(ss, result))
  {
    hide Payloads, Subsequence, WriterInv, AfterWrite, CanHappen;
    WriterIsCurrent(ss);
    var due := ss.handled;
    SliceGrows(ss.inbox, ss.openedAt, ss.taken);
    assert due + [] == due;
    if ss.inbox[ss.taken].frameType.Data? {
      DataKeepsWriter(ss, result, due);
    } else {
      OtherKeepsWriter(ss, result, due);
    }
  }

  /** A relay that starts has nothing due yet. */
  lemma NothingDue(ss: Session)
    requires ss.openedAt == ss.taken <= |ss.inbox| && ss.handled == [] && ss.written == [] && ss.partial == []
    ensures WriterInv(ss)
  {
    assert ss.inbox[ss.taken..ss.taken] == [];
    NoPayloads();
  }

  lemma NothingHandled(ss: Session)
    requires ss.openedAt <= ss.taken <= |ss.inbox| && WriterInv(ss) && ss.reader.Off?
    ensures ss.handled == [] && ss.written == [] && ss.partial == []
  {
  }

  /** Before the relay nothing is written, whatever the wait loop takes. */
  lemma NotYetWriting(ss: Session)
    requires ss.openedAt <= ss.taken <= |ss.inbox| && ss.reader.Off? && !ss.writing
    requires ss.handled == [] && ss.written == [] && ss.partial == []
    ensures WriterInv(ss)
  {
  }

  lemma StepKeepsWriter(server: bool, ss: Session, registered: bool, step: TaskStep, t: seq<Frame>)
    requires ScriptInv(server, ss, t) && WaitInv(server, ss) && WriterInv(ss)
    requires TaskEnabled(server, ss, registered, step) && WaitInv(server, TaskNext(server, ss, registered, step))
    ensures WriterInv(TaskNext(server, ss, registered, step))
  {
    hide Payloads, Closes, Script, WaitInv, Subsequence;
    WaitBounds(server, ss);
    var ss' := TaskNext(server, ss, registered, step);
    WaitBounds(server, ss');
    if step.Write? {
      hide WriterInv;
      WriteKeepsWriter(ss, step.result);
    } else if step.AwaitFrame? || step.Accept? {
      NothingHandled(ss);
      hide WriterInv;
      if ss'.writing {
        NothingDue(ss');
      } else {
        NotYetWriting(ss');
      }
    }
  }

  lemma WaitBounds(server: bool, ss: Session)
    requires WaitInv(server, ss)
    ensures ss.openedAt <= ss.taken <= |ss.inbox| && (server ==> ss.openedAt == 0)
  {
  }

  /** A task that takes a step has an id that was given out for good, and says so when it drops its registration. */
  lemma StepKeepsFlags(server: bool, ss: Session, registered: bool, step: TaskStep, t: seq<Frame>)
    requires ScriptInv(server, ss, t) && TaskEnabled(server, ss, registered, step)
    ensures var ss' := TaskNext(server, ss, registered, step);
            && !ss.phase.Allocated? && !ss'.phase.Allocated?
            && ss'.dropped == (ss.dropped || step.DropRegistration?)
  {
    hide Script, Closes, EncodeRequest, ValidUtf8, Begins, Ended, Over, CanHappen;
  }

  lemma WriteKeepsEnd(server: bool, ss: Session, registered: bool, result: WriteResult)
    requires ss.openedAt <= ss.taken < |ss.inbox| && WriterInv(ss) && WriterEnd(ss, registered) && ss.writing
    requires CanHappen(ss.udp, ss.inbox[ss.taken], result)
    ensures WriterEnd(AfterWrite(ss, result), registered)
  {
    hide Payloads, Subsequence;
    SliceGrows(ss.inbox, ss.openedAt, ss.taken);
  }

  lemma RelayJustStarted(ss: Session, registered: bool)
    requires ss.openedAt == ss.taken <= |ss.inbox| && ss.writing
    ensures WriterEnd(ss, registered)
  {
  }

  lemma StepKeepsEnd(server: bool, ss: Session, registered: bool, step: TaskStep, t: seq<Frame>)
    requires ScriptInv(server, ss, t) && WaitInv(server, ss) && WriterInv(ss) && WriterEnd(ss, registered)
    requires TaskEnabled(server, ss, registered, step) && WaitInv(server, TaskNext(server, ss, registered, step))
    ensures WriterEnd(TaskNext(server, ss, registered, step), registered)
    ensures step.DropRegistration? ==> WriterEnd(TaskNext(server, ss, registered, step), false)
  {
    hide Payloads, Closes, Script, WaitInv, WriterInv, EncodeRequest, ValidUtf8, Begins, Ended, Over;
    WaitBounds(server, ss);
    var ss' := TaskNext(server, ss, registered, step);
    WaitBounds(server, ss');
    if step.Write? {
      hide WriterEnd;
      WriteKeepsEnd(server, ss, registered, step.result);
    } else if ss'.writing && !ss.writing {
      hide WriterEnd;
      RelayJustStarted(ss', registered);
    }
  }

  /** Every step of every task keeps the session invariant, against the frames enqueued so far. */
  lemma StepKeepsSession(server: bool, sid: u32, ss: Session, registered: bool, step: TaskStep, t: seq<Frame>)
    requires SessionInv(server, ss, t) && TaskEnabled(server, ss, registered, step)
    ensures SessionInv(server, TaskNext(server, ss, registered, step), TraceAfter(sid, ss, step, t))
  {
    StepKeepsScript(server, sid, ss, registered, step, t);
    StepKeepsReader(server, sid, ss, registered, step, t);
    StepKeepsWait(server, ss, registered, step, t);
    StepKeepsWriter(server, ss, registered, step, t);
  }

  /** A frame arriving in the channel disturbs nothing. */
  lemma DeliveryKeepsSession(server: bool, ss: Session, f: Frame, via: Option<nat>, t: seq<Frame>)
    requires SessionInv(server, ss, t) && !ss.phase.Allocated?
    ensures SessionInv(server, ss.(inbox := ss.inbox + [f], via := via), t)
  {
    hide Script, Closes, Payloads, Subsequence, EncodeRequest, ValidUtf8;
    assert (ss.inbox + [f])[ss.openedAt..ss.taken] == ss.inbox[ss.openedAt..ss.taken];
  }

  /** Whole items and then part of the next one, flattened, are a prefix of all items flattened. */
  lemma PartialPrefix(whole: seq<Bytes>, part: Bytes, all: seq<Bytes>)
    requires whole <= all
    requires part != [] ==> |whole| < |all| && part <= all[|whole|]
    ensures Flatten(whole) + part <= Flatten(all)
  {
    FlattenPrefix(whole, all);
    if part != [] {
      var next := whole + [all[|whole|]];
      FlattenConcat(whole, [all[|whole|]]);
      FlattenOne(all[|whole|]);
      FlattenPrefix(next, all);
    }
  }

  /**
   Once no Data frame precedes the relay, what was written is what the Data frames of
   the inbox carry: datagrams with gaps, a byte stream up to some point.
   */
  lemma WrittenFromInbox(server: bool, ss: Session)
    requires WaitInv(server, ss) && WriterInv(ss)
    requires Payloads(ss.inbox[..ss.openedAt]) == []
    ensures Subsequence(ss.written, Payloads(ss.inbox))
    ensures !ss.udp ==> ss.written <= Payloads(ss.inbox) && Written(ss) <= Flatten(Payloads(ss.inbox))
  {
    hide Payloads, Flatten, Subsequence;
    var before, due, after := ss.inbox[..ss.openedAt], ss.inbox[ss.openedAt..ss.taken], ss.inbox[ss.taken..];
    assert ss.inbox == before + due + after;
    Concat(before, due, 0);
    Concat(before + due, after, 0);
    assert Payloads(due) <= Payloads(ss.inbox);
    SubsequenceOfPrefix(ss.written, ss.handled, Payloads(ss.inbox));
    if !ss.udp {
      PartialPrefix(ss.handled, ss.partial, Payloads(ss.inbox));
    }
  }
}
