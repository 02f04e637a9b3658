/**
 The socket relay of the backend server: connections join a room named by a
 session hash after the registry admits them, every chat message is appended
 to the transcript of the sender's room and delivered to the room's members of
 the opposite role, and an analysis of the transcript is pushed to the room's
 medics when it succeeds.

 The state the handlers touch is kept in one `Relay` object:
 - `tag`: the `(role, hash)` stored in each connection's `socket.data`;
 - `rooms`: the members of each room, in the order they joined (a room is an
   insertion-ordered set, so a member appears once);
 - `history`: the per-hash transcript `messageHistory`;
 - `outbox`: every event emitted to a connection, in emission order.
 Each handler runs to completion as one step; `fetchSockets` is a snapshot of
 the room taken inside that step.
 */
module Server {
  import opened Sessions

  type ConnId = string

  const Medic := "medic"
  const Patient := "patient"
  const InvalidSession := "Sessão inválida"
  const Forbidden := "Você não tem permissão para entrar nesta sessão"

  /** The `socket.data.role` and `socket.data.hash` of a connection that has joined. A falsy value is "". */
  datatype Tag = Tag(role: string, hash: string)

  /** Payload of `join_room`; `patientId` is optional. */
  datatype JoinRequest = JoinRequest(hash: string, role: string, patientId: Option<string>)

  /** Payload of `chat_message`. */
  datatype ChatRequest = ChatRequest(hash: string, content: string)

  /** One transcript entry `{ role, content }`. */
  datatype Entry = Entry(role: string, content: string)

  /** The analysis payload, passed through verbatim. */
  datatype AnalysisResult = AnalysisResult(payload: string)

  /** What the external analysis call ends with: a result, or a thrown error. */
  datatype Outcome = Success(result: AnalysisResult) | Failure

  datatype Event =
    | Error(reason: string)
    | ChatMessage(role: string, content: string)
    | AgentAnalysis(result: AnalysisResult)

  /** One `emit` of `event` on the connection `to`. */
  datatype Emission = Emission(to: ConnId, event: Event)

  datatype Admission = Admitted | Refused(reason: string)

  predicate Distinct(s: seq<ConnId>)
  {
    forall i, j :: 0 <= i < j < |s| ==> s[i] != s[j]
  }

  /** The registry holds a truthy patient id for `hash`. */
  predicate Bound(sessions: map<string, string>, hash: string)
  {
    hash in sessions && sessions[hash] != ""
  }

  /** The two guards of `join_room`, in their order. */
  function Admit(sessions: map<string, string>, req: JoinRequest): (v: Admission)
    // admitted iff the hash is bound and, for a patient, the claimed id is the bound one
    ensures v == Admitted <==>
      Bound(sessions, req.hash) && (req.role == Patient ==> req.patientId == Some(sessions[req.hash]))
    // an unbound hash is refused as an invalid session, whatever the role and claimed id
    ensures !Bound(sessions, req.hash) ==> v == Refused(InvalidSession)
    // any other refusal is the permission error, which does not reveal the bound id
    ensures Bound(sessions, req.hash) && v != Admitted ==> v == Refused(Forbidden)
  {
    var allowed := Lookup(sessions, req.hash);
    if allowed == None || allowed.value == "" then Refused(InvalidSession)
    else if req.role == Patient && req.patientId != allowed then Refused(Forbidden)
    else Admitted
  }

  /** The role a message from `role` is delivered to. */
  function TargetRole(role: string): (t: string)
    ensures t != role
    ensures t == Medic || t == Patient
    ensures t == Patient <==> role == Medic
  {
    if role == Medic then Patient else Medic
  }

  /** The members of room `hash`; an absent room has none. */
  function RoomOf(rooms: map<string, seq<ConnId>>, hash: string): seq<ConnId>
  {
    if hash in rooms then rooms[hash] else []
  }

  /** The rooms after `socket.join(hash)` by `c`: a room is a set, so a member is added once, at the end. */
  function AddMember(rooms: map<string, seq<ConnId>>, hash: string, c: ConnId): (r: map<string, seq<ConnId>>)
    ensures forall x :: x in RoomOf(r, hash) <==> x in RoomOf(rooms, hash) || x == c
    ensures RoomOf(rooms, hash) <= RoomOf(r, hash)
    ensures Distinct(RoomOf(rooms, hash)) ==> Distinct(RoomOf(r, hash))
    ensures forall h :: h != hash ==> RoomOf(r, h) == RoomOf(rooms, h)
    ensures r.Keys == rooms.Keys + {hash}
  {
    var room := RoomOf(rooms, hash);
    rooms[hash := if c in room then room else room + [c]]
  }

  /** `s` with every occurrence of `c` removed, order kept. */
  function Without(s: seq<ConnId>, c: ConnId): (r: seq<ConnId>)
    ensures forall x :: x in r <==> x in s && x != c
    ensures Distinct(s) ==> Distinct(r)
    ensures |r| <= |s|
    // a member list without `c` is left exactly as it was
    ensures c !in s ==> r == s
  {
    if s == [] then []
    else
      var rest := Without(s[..|s| - 1], c);
      var last := s[|s| - 1];
      assert Distinct(s) ==> last !in s[..|s| - 1];
      if last == c then rest else rest + [last]
  }

  /** The rooms after `c` leaves all of them on disconnect; a room left empty is deleted. */
  function LeaveAll(rooms: map<string, seq<ConnId>>, c: ConnId): (r: map<string, seq<ConnId>>)
    ensures forall h :: c !in RoomOf(r, h)
    // each surviving room keeps its other members in their join order
    ensures forall h :: h in r ==> h in rooms && r[h] == Without(rooms[h], c)
    ensures forall h, x :: x != c ==> (x in RoomOf(r, h) <==> x in RoomOf(rooms, h))
    ensures forall h :: h in r ==> h in rooms && r[h] != [] && (Distinct(rooms[h]) ==> Distinct(r[h]))
  {
    map h | h in rooms && Without(rooms[h], c) != [] :: Without(rooms[h], c)
  }

  /** The transcript of `hash`; an absent one is empty. */
  function Transcript(history: map<string, seq<Entry>>, hash: string): seq<Entry>
  {
    if hash in history then history[hash] else []
  }

  /** `messageHistory[hash].push(e)`, creating the list on first use. */
  function AppendEntry(history: map<string, seq<Entry>>, hash: string, e: Entry): (r: map<string, seq<Entry>>)
    ensures Transcript(r, hash) == Transcript(history, hash) + [e]
    ensures forall h :: h != hash ==> Transcript(r, h) == Transcript(history, h)
    ensures r.Keys == history.Keys + {hash}
  {
    history[hash := Transcript(history, hash) + [e]]
  }

  /**
   The emissions of one `forEach` over the room snapshot: `ev` to each member,
   in snapshot order, whose stored role is `role`.
   */
  function Fanout(snapshot: seq<ConnId>, tag: map<ConnId, Tag>, role: string, ev: Event): seq<Emission>
  {
    if snapshot == [] then []
    else
      var rest := Fanout(snapshot[..|snapshot| - 1], tag, role, ev);
      var last := snapshot[|snapshot| - 1];
      if last in tag && tag[last].role == role then rest + [Emission(last, ev)] else rest
  }

  /** What the analysis step emits: the result to every medic of the snapshot, or nothing on failure. */
  function AnalysisPush(outcome: Outcome, snapshot: seq<ConnId>, tag: map<ConnId, Tag>): seq<Emission>
  {
    match outcome
    case Success(result) => Fanout(snapshot, tag, Medic, AgentAnalysis(result))
    case Failure => []
  }

  /** Everything one admitted `chat_message` emits: the delivery, then the analysis push. */
  function ChatEmissions(snapshot: seq<ConnId>, tag: map<ConnId, Tag>, sender: Tag, content: string, outcome: Outcome): seq<Emission>
  {
    Fanout(snapshot, tag, TargetRole(sender.role), ChatMessage(sender.role, content)) + AnalysisPush(outcome, snapshot, tag)
  }

  /**
   Rooms are non-empty sets of joined connections, and every joined
   connection is a member of the room its stored hash names.
   */
  ghost predicate Consistent(tag: map<ConnId, Tag>, rooms: map<string, seq<ConnId>>)
  {
    && (forall h :: h in rooms ==> rooms[h] != [] && Distinct(rooms[h]))
    && (forall h, x :: h in rooms && x in rooms[h] ==> x in tag)
    && (forall x :: x in tag ==> x in RoomOf(rooms, tag[x].hash))
  }

  /** An admitted join keeps the rooms consistent with the stored tags. */
  lemma JoinKeepsConsistent(tag: map<ConnId, Tag>, rooms: map<string, seq<ConnId>>, c: ConnId, t: Tag)
    requires Consistent(tag, rooms)
    ensures Consistent(tag[c := t], AddMember(rooms, t.hash, c))
  {
  }

  /** A disconnect keeps the rooms consistent with the stored tags. */
  lemma LeaveKeepsConsistent(tag: map<ConnId, Tag>, rooms: map<string, seq<ConnId>>, c: ConnId)
    requires Consistent(tag, rooms)
    ensures Consistent(tag - {c}, LeaveAll(rooms, c))
  {
  }

  /** A connection whose stored role and hash are both truthy; only its messages are relayed. */
  predicate Tagged(tag: map<ConnId, Tag>, c: ConnId)
  {
    c in tag && tag[c].role != "" && tag[c].hash != ""
  }

  class Relay {
    const registry: SessionRegistry
    var tag: map<ConnId, Tag>
    var rooms: map<string, seq<ConnId>>
    var history: map<string, seq<Entry>>
    var outbox: seq<Emission>

    ghost predicate Valid()
      reads this`tag, this`rooms
    {
      Consistent(tag, rooms)
    }

    constructor (registry: SessionRegistry)
      ensures Valid()
      ensures this.registry == registry
      ensures tag == map[] && rooms == map[] && history == map[] && outbox == []
    {
      this.registry := registry;
      tag, rooms, history, outbox := map[], map[], map[], [];
    }

    /** The `join_room` handler for connection `c`. */
    method JoinRoom(c: ConnId, req: JoinRequest)
      requires Valid()
      modifies this
      ensures Valid()
      ensures history == old(history)
      ensures var v := Admit(registry.sessions, req);
        if v == Admitted then
          && tag == old(tag)[c := Tag(req.role, req.hash)]
          && rooms == AddMember(old(rooms), req.hash, c)
          && outbox == old(outbox)
        else
          && tag == old(tag)
          && rooms == old(rooms)
          && outbox == old(outbox) + [Emission(c, Error(v.reason))]
    {
      var allowed := registry.GetPatientId(req.hash);
      if allowed == None || allowed.value == "" {
        outbox := outbox + [Emission(c, Error(InvalidSession))];
        return;
      }
      if req.role == Patient && req.patientId != allowed {
        outbox := outbox + [Emission(c, Error(Forbidden))];
        return;
      }
      JoinKeepsConsistent(tag, rooms, c, Tag(req.role, req.hash));
      rooms := AddMember(rooms, req.hash, c);
      tag := tag[c := Tag(req.role, req.hash)];
    }

    /**
     The `chat_message` handler for connection `c`. The payload's hash is not
     used: the message goes to the hash stored at join time.
     */
    method ChatMessageFrom(c: ConnId, req: ChatRequest, analyze: (Option<string>, seq<Entry>) -> Outcome)
      requires Valid()
      modifies this
      ensures Valid()
      ensures tag == old(tag) && rooms == old(rooms)
      ensures !Tagged(old(tag), c) ==> history == old(history) && outbox == old(outbox)
      ensures Tagged(old(tag), c) ==>
        var sender := old(tag)[c];
        && history == AppendEntry(old(history), sender.hash, Entry(sender.role, req.content))
        && outbox == old(outbox) + ChatEmissions(RoomOf(rooms, sender.hash), tag, sender, req.content,
                                                 analyze(Lookup(registry.sessions, sender.hash), Transcript(history, sender.hash)))
    {
      if c !in tag {
        return;
      }
      var sender := tag[c];
      if sender.role == "" || sender.hash == "" {
        return;
      }
      history := AppendEntry(history, sender.hash, Entry(sender.role, req.content));
      Broadcast(sender, req.content, analyze);
    }

    /**
     The part of `chat_message` after the transcript append: the delivery to
     the opposite role over a snapshot of the room, then the analysis of the
     whole transcript, pushed to the snapshot's medics unless it failed.
     */
    method Broadcast(sender: Tag, content: string, analyze: (Option<string>, seq<Entry>) -> Outcome)
      modifies this`outbox
      ensures outbox == old(outbox) + ChatEmissions(RoomOf(rooms, sender.hash), tag, sender, content,
                                                    analyze(Lookup(registry.sessions, sender.hash), Transcript(history, sender.hash)))
    {
      var targetRole := TargetRole(sender.role);
      var socketsInRoom := RoomOf(rooms, sender.hash);
      EmitTo(socketsInRoom, targetRole, ChatMessage(sender.role, content));
      ghost var chat := Fanout(socketsInRoom, tag, targetRole, ChatMessage(sender.role, content));
      ghost var delivered := outbox;

      var patientId := registry.GetPatientId(sender.hash);
      var outcome := analyze(patientId, Transcript(history, sender.hash));
      if outcome.Success? {
        EmitTo(socketsInRoom, Medic, AgentAnalysis(outcome.result));
      } else {
        assert outbox == delivered + [];
      }
      ghost var push := AnalysisPush(outcome, socketsInRoom, tag);
      assert outbox == delivered + push;
    }

    /**
     A connection goes away. The handler itself only logs; the transport
     takes the connection out of every room it joined and its stored data
     goes with it.
     */
    method Disconnect(c: ConnId)
      requires Valid()
      modifies this
      ensures Valid()
      ensures history == old(history) && outbox == old(outbox)
      ensures tag == old(tag) - {c}
      ensures rooms == LeaveAll(old(rooms), c)
    {
      LeaveKeepsConsistent(tag, rooms, c);
      rooms := LeaveAll(rooms, c);
      tag := tag - {c};
    }

    /** `snapshot.forEach(s => { if (s.data.role === role) s.emit(...) })`. */
    method EmitTo(snapshot: seq<ConnId>, role: string, ev: Event)
      modifies this`outbox
      ensures outbox == old(outbox) + Fanout(snapshot, tag, role, ev)
    {
      var i := 0;
      while i < |snapshot|
        invariant 0 <= i <= |snapshot|
        invariant outbox == old(outbox) + Fanout(snapshot[..i], tag, role, ev)
      {
        var s := snapshot[i];
        if s in tag && tag[s].role == role {
          outbox := outbox + [Emission(s, ev)];
        }
        assert snapshot[..i + 1][..i] == snapshot[..i];
        i := i + 1;
      }
      assert snapshot[..i] == snapshot;
    }
  }
}
