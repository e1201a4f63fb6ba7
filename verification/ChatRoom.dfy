/**
 The chat server's event loop: sessions join and leave a room, messages are delivered to every
 participant, and each session has at most one write outstanding. Handlers are atomic.
 */
module ChatRoom {
  import opened ChatMessage

  const MAX_RECENT_MSGS: nat := 100

  /** Messages not yet written, writes started and not completed, messages written, and whether a write failed. */
  datatype Session = Session(queue: seq<Body>, outstanding: nat, completed: seq<Body>, failed: bool)

  datatype Room<P> = Room(participants: set<P>, recent: seq<Body>, sessions: map<P, Session>)

  const NewSession: Session := Session([], 0, [], false)

  /** `ChatSession::deliver`: a write is started only if none was in progress. */
  function DeliverTo(s: Session, msg: Body): Session {
    s.(queue := s.queue + [msg], outstanding := if s.queue == [] then s.outstanding + 1 else s.outstanding)
  }

  function DeliverAll(s: Session, msgs: seq<Body>): Session
    decreases |msgs|
  {
    if msgs == [] then s else DeliverAll(DeliverTo(s, msgs[0]), msgs[1..])
  }

  /** The completion handler without error: the written message leaves, the next write starts. */
  function WriteDone(s: Session): Session
    requires s.outstanding > 0 && s.queue != []
  {
    s.(queue := s.queue[1..],
       completed := s.completed + [s.queue[0]],
       outstanding := s.outstanding - 1 + (if |s.queue| > 1 then 1 else 0))
  }

  /** The completion handler with an error: the message stays, nothing is started. */
  function WriteFailed(s: Session): Session
    requires s.outstanding > 0
  {
    s.(outstanding := s.outstanding - 1, failed := true)
  }

  /** `recent_msgs_` after the trimming loop. */
  function Trim(msgs: seq<Body>): seq<Body> {
    if |msgs| > MAX_RECENT_MSGS then Trim(msgs[1..]) else msgs
  }

  /** The at most 100 last messages. */
  function Latest(msgs: seq<Body>): seq<Body> {
    if |msgs| > MAX_RECENT_MSGS then msgs[|msgs| - MAX_RECENT_MSGS..] else msgs
  }

  lemma {:induction false} TrimIsLatest(msgs: seq<Body>)
    ensures Trim(msgs) == Latest(msgs)
  {
    if |msgs| > MAX_RECENT_MSGS {
      TrimIsLatest(msgs[1..]);
    }
  }

  lemma LatestExtend(msgs: seq<Body>, m: Body)
    ensures Latest(Latest(msgs) + [m]) == Latest(msgs + [m])
  {
  }

  // ----- the steps of the event loop -----

  datatype Step<P> =
    | Join(p: P)
    | Leave(p: P)
    | Deliver(msg: Body)
    | Written(p: P)
    | WriteError(p: P)

  ghost predicate Enabled<P>(r: Room<P>, step: Step<P>) {
    match step
    case Join(p) => p !in r.sessions
    case Leave(p) => p in r.sessions
    case Deliver(_) => true
    case Written(p) => p in r.sessions && r.sessions[p].outstanding > 0 && r.sessions[p].queue != []
    case WriteError(p) => p in r.sessions && r.sessions[p].outstanding > 0
  }

  function Apply<P>(r: Room<P>, step: Step<P>): Room<P> {
    match step
    case Join(p) =>
      Room(r.participants + {p}, r.recent, r.sessions[p := DeliverAll(NewSession, r.recent)])
    case Leave(p) => r.(participants := r.participants - {p})
    case Deliver(msg) =>
      Room(r.participants, Trim(r.recent + [msg]),
           map p | p in r.sessions ::
             if p in r.participants then DeliverTo(r.sessions[p], msg) else r.sessions[p])
    case Written(p) =>
      if p in r.sessions && r.sessions[p].outstanding > 0 && r.sessions[p].queue != [] then
        r.(sessions := r.sessions[p := WriteDone(r.sessions[p])])
      else r
    case WriteError(p) =>
      if p in r.sessions && r.sessions[p].outstanding > 0 then
        Room(r.participants - {p}, r.recent, r.sessions[p := WriteFailed(r.sessions[p])])
      else r
  }

  ghost predicate ValidRun<P>(steps: seq<Step<P>>)
    decreases |steps|
  {
    steps == [] ||
    (var before := steps[..|steps| - 1];
     ValidRun(before) && Enabled(Exec(before), steps[|steps| - 1]))
  }

  /** The room after these steps, from an empty room. */
  function Exec<P>(steps: seq<Step<P>>): Room<P>
    decreases |steps|
  {
    if steps == [] then Room({}, [], map[])
    else Apply(Exec(steps[..|steps| - 1]), steps[|steps| - 1])
  }

  // ----- what a session is owed, from the history alone -----

  /** Every message delivered to the room so far. */
  function Sent<P>(steps: seq<Step<P>>): seq<Body> {
    if steps == [] then []
    else
      var last := steps[|steps| - 1];
      Sent(steps[..|steps| - 1]) + (if last.Deliver? then [last.msg] else [])
  }

  datatype Membership = Never | Inside(owed: seq<Body>) | Outside(owed: seq<Body>)

  /** The recent messages at the join, then every later message until the session leaves or fails. */
  function Track<P(==)>(steps: seq<Step<P>>, p: P): Membership
    decreases |steps|
  {
    if steps == [] then Never
    else
      var before := steps[..|steps| - 1];
      var was := Track(before, p);
      match steps[|steps| - 1]
      case Join(q) => if q == p then Inside(Latest(Sent(before))) else was
      case Leave(q) => if q == p && was.Inside? then Outside(was.owed) else was
      case WriteError(q) => if q == p && was.Inside? then Outside(was.owed) else was
      case Deliver(msg) => if was.Inside? then Inside(was.owed + [msg]) else was
      case Written(_) => was
  }

  /** An outstanding write exactly when something is queued, unless a write failed; then none. */
  ghost predicate OneWrite(s: Session) {
    s.outstanding == (if s.failed || s.queue == [] then 0 else 1)
  }

  ghost predicate Accounted<P>(r: Room<P>, p: P, m: Membership) {
    && (p in r.sessions <==> !m.Never?)
    && (p in r.participants <==> m.Inside?)
    && (p in r.sessions ==>
          var s := r.sessions[p];
          OneWrite(s) && s.completed + s.queue == m.owed && (s.failed ==> m.Outside?))
  }

  lemma {:induction false} DeliverAllSpec(s: Session, msgs: seq<Body>)
    requires OneWrite(s) && !s.failed
    ensures var s' := DeliverAll(s, msgs);
            OneWrite(s') && !s'.failed && s'.completed == s.completed && s'.queue == s.queue + msgs
    decreases |msgs|
  {
    if msgs != [] {
      DeliverAllSpec(DeliverTo(s, msgs[0]), msgs[1..]);
    }
  }

  lemma {:induction false} RecentIsLatest<P>(steps: seq<Step<P>>)
    ensures Exec(steps).recent == Latest(Sent(steps))
  {
    if steps != [] {
      var before, last := steps[..|steps| - 1], steps[|steps| - 1];
      RecentIsLatest(before);
      if last.Deliver? {
        TrimIsLatest(Exec(before).recent + [last.msg]);
        LatestExtend(Sent(before), last.msg);
      } else {
        assert Sent(before) + [] == Sent(before);
      }
    }
  }

  /**
   Over every interleaving, for every session: at most one write is outstanding, and without a
   write error exactly when something is queued; what was written, followed by the queue, is
   the at most 100 latest messages at its join followed by every later message until it left.
   */
  lemma {:induction false} SessionsAreServed<P(!new)>(steps: seq<Step<P>>, p: P)
    requires ValidRun(steps)
    ensures Accounted(Exec(steps), p, Track(steps, p))
    decreases |steps|
  {
    if steps != [] {
      var before, last := steps[..|steps| - 1], steps[|steps| - 1];
      SessionsAreServed(before, p);
      var r := Exec(before);
      match last
      case Join(q) =>
        SessionsAreServed(before, q);
        RecentIsLatest(before);
        DeliverAllSpec(NewSession, r.recent);
      case Leave(_) =>
      case Deliver(msg) =>
        if p in r.participants {
          var s := r.sessions[p];
          assert s.completed + (s.queue + [msg]) == (s.completed + s.queue) + [msg];
        }
      case Written(q) =>
        if q == p {
          var s := r.sessions[p];
          assert s.completed + [s.queue[0]] + s.queue[1..] == s.completed + s.queue;
        }
      case WriteError(_) =>
    }
  }

  /** What reaches the client: the bytes of the completed messages decode to a prefix of what the session is owed. */
  lemma ClientReceivesPrefix<P(!new)>(steps: seq<Step<P>>, p: P, n: nat)
    requires ValidRun(steps) && p in Exec(steps).sessions && n <= |Frames(Exec(steps).sessions[p].completed)|
    ensures !Track(steps, p).Never?
    ensures var wire, owed := Frames(Exec(steps).sessions[p].completed), Track(steps, p).owed;
            Read(wire[..n]).bodies <= owed && !Read(wire[..n]).failed
            && (n == |wire| ==> Read(wire).bodies == Exec(steps).sessions[p].completed)
  {
    SessionsAreServed(steps, p);
    var s := Exec(steps).sessions[p];
    ReadsCompleteFrames(s.completed, n);
    ReadInvertsFrames(s.completed);
    var k := Complete(s.completed, n);
    assert Track(steps, p).owed[..k] == s.completed[..k];
  }

  // ----- the objects -----

  class ChatSession {
    var queue: seq<Body>
    ghost var outstanding: nat
    ghost var completed: seq<Body>
    ghost var failed: bool

    ghost function View(): Session
      reads this
    {
      Session(queue, outstanding, completed, failed)
    }

    constructor ()
      ensures View() == NewSession
    {
      queue, outstanding, completed, failed := [], 0, [], false;
    }

    /** Starts an asynchronous write of the front message. */
    method DoWrite()
      requires queue != []
      modifies this`outstanding
      ensures outstanding == old(outstanding) + 1
    {
      outstanding := outstanding + 1;
    }

    method DeliverMessage(msg: Body)
      modifies this
      ensures View() == DeliverTo(old(View()), msg)
    {
      var writeInProgress := queue != [];
      queue := queue + [msg];
      if !writeInProgress {
        DoWrite();
      }
    }

    /** The completion handler of a write. */
    method OnWritten(room: ChatRoomObject, error: bool)
      requires outstanding > 0 && queue != []
      modifies this, room
      ensures View() == if error then WriteFailed(old(View())) else WriteDone(old(View()))
      ensures room.participants == if error then old(room.participants) - {this} else old(room.participants)
      ensures room.recent == old(room.recent)
    {
      outstanding := outstanding - 1;
      if error {
        failed := true;
        room.LeaveRoom(this);
      } else {
        completed := completed + [queue[0]];
        queue := queue[1..];
        if queue != [] {
          DoWrite();
        }
      }
    }
  }

  class ChatRoomObject {
    var participants: set<ChatSession>
    var recent: seq<Body>

    constructor ()
      ensures participants == {} && recent == []
    {
      participants, recent := {}, [];
    }

    /** The recent messages are delivered one by one, oldest first. */
    method JoinRoom(p: ChatSession)
      modifies this, p
      ensures participants == old(participants) + {p} && recent == old(recent)
      ensures p.View() == DeliverAll(old(p.View()), recent)
    {
      participants := participants + {p};
      ghost var all := DeliverAll(p.View(), recent);
      var i := 0;
      while i < |recent|
        invariant 0 <= i <= |recent| && recent == old(recent) && participants == old(participants) + {p}
        invariant DeliverAll(p.View(), recent[i..]) == all
        modifies p
      {
        p.DeliverMessage(recent[i]);
        assert recent[i..][1..] == recent[i + 1..];
        i := i + 1;
      }
    }

    method LeaveRoom(p: ChatSession)
      modifies this
      ensures participants == old(participants) - {p} && recent == old(recent)
    {
      participants := participants - {p};
    }

    /** Every participant gets the message exactly once, in whatever order the set is visited. */
    method DeliverToRoom(msg: Body)
      modifies this, participants
      ensures participants == old(participants) && recent == Trim(old(recent) + [msg])
      ensures forall p :: p in participants ==> p.View() == DeliverTo(old(p.View()), msg)
    {
      recent := recent + [msg];
      while |recent| > MAX_RECENT_MSGS
        invariant participants == old(participants) && Trim(recent) == Trim(old(recent) + [msg])
        modifies this`recent
      {
        recent := recent[1..];
      }
      var rest := participants;
      while rest != {}
        invariant rest <= participants == old(participants) && recent == Trim(old(recent) + [msg])
        invariant forall p :: p in participants - rest ==> p.View() == DeliverTo(old(p.View()), msg)
        invariant forall p :: p in rest ==> p.View() == old(p.View())
        modifies participants
        decreases |rest|
      {
        var p :| p in rest;
        p.DeliverMessage(msg);
        rest := rest - {p};
      }
    }
  }
}
