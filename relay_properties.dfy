/**
 Properties of the relay that span the pieces of one handler or several
 handler calls: who a message reaches, who the analysis reaches, that the
 delivery does not depend on the analysis, the order of each transcript, and
 that a connection outside a room (never joined, or gone) receives nothing
 from it.
 */
module RelayProperties {
  import opened Sessions
  import opened Server

  // ---------------------------------------------------------------------------
  // One forEach over a room snapshot
  // ---------------------------------------------------------------------------

  /** A snapshot's forEach emits `ev` to exactly the members whose stored role is `role`, and to nobody else. */
  lemma {:induction false} FanoutExact(snapshot: seq<ConnId>, tag: map<ConnId, Tag>, role: string, ev: Event)
    ensures forall m :: m in Fanout(snapshot, tag, role, ev) <==>
      m.event == ev && m.to in snapshot && m.to in tag && tag[m.to].role == role
  {
    if snapshot != [] {
      var init := snapshot[..|snapshot| - 1];
      FanoutExact(init, tag, role, ev);
      assert snapshot == init + [snapshot[|snapshot| - 1]];
    }
  }

  /** Over a room, where every member appears once, each recipient gets the event once. */
  lemma {:induction false} FanoutOncePerMember(snapshot: seq<ConnId>, tag: map<ConnId, Tag>, role: string, ev: Event)
    requires Distinct(snapshot)
    ensures var r := Fanout(snapshot, tag, role, ev);
      forall i, j :: 0 <= i < j < |r| ==> r[i].to != r[j].to
  {
    if snapshot != [] {
      var init := snapshot[..|snapshot| - 1];
      var last := snapshot[|snapshot| - 1];
      assert Distinct(init) by {
        forall i, j | 0 <= i < j < |init|
          ensures init[i] != init[j]
        {
          assert init[i] == snapshot[i] && init[j] == snapshot[j];
        }
      }
      FanoutOncePerMember(init, tag, role, ev);
      assert var r0 := Fanout(init, tag, role, ev); forall i, j :: 0 <= i < j < |r0| ==> r0[i].to != r0[j].to;
      FanoutExact(init, tag, role, ev);
      assert last !in init;
      var rest := Fanout(init, tag, role, ev);
      var r := Fanout(snapshot, tag, role, ev);
      var added := last in tag && tag[last].role == role;
      assert r == if added then rest + [Emission(last, ev)] else rest;
      forall i, j | 0 <= i < j < |r|
        ensures r[i].to != r[j].to
      {
        assert r[i] == rest[i];
        if j < |rest| {
          assert r[j] == rest[j];
        } else {
          assert r[j] == Emission(last, ev);
          assert rest[i] in rest;
          assert rest[i].to in init;
        }
      }
    }
  }

  /** The forEach visits the snapshot in order: a longer snapshot only adds emissions at the end. */
  lemma {:induction false} FanoutInSnapshotOrder(a: seq<ConnId>, b: seq<ConnId>, tag: map<ConnId, Tag>, role: string, ev: Event)
    ensures Fanout(a + b, tag, role, ev) == Fanout(a, tag, role, ev) + Fanout(b, tag, role, ev)
  {
    if b == [] {
      assert a + b == a;
    } else {
      var init := b[..|b| - 1];
      FanoutInSnapshotOrder(a, init, tag, role, ev);
      assert (a + b)[..|a + b| - 1] == a + init;
    }
  }

  /** Removing a member distributes over the parts of a member list, so the order of the rest is kept. */
  lemma {:induction false} WithoutDistributes(a: seq<ConnId>, b: seq<ConnId>, c: ConnId)
    ensures Without(a + b, c) == Without(a, c) + Without(b, c)
  {
    if b == [] {
      assert a + b == a;
    } else {
      var init := b[..|b| - 1];
      WithoutDistributes(a, init, c);
      assert (a + b)[..|a + b| - 1] == a + init;
    }
  }

  /**
   When a member of a room disconnects, the members that joined before it and
   the members that joined after it stay, in their join order.
   */
  lemma LeaveKeepsJoinOrder(before: seq<ConnId>, c: ConnId, after: seq<ConnId>)
    requires c !in before && c !in after
    ensures Without(before + [c] + after, c) == before + after
  {
    WithoutDistributes(before + [c], after, c);
    WithoutDistributes(before, [c], c);
    assert Without([c], c) == Without([], c);
  }

  // ---------------------------------------------------------------------------
  // One chat_message
  // ---------------------------------------------------------------------------

  /**
   The message reaches exactly the snapshot members whose stored role is the
   opposite of the sender's, whatever the analysis does.
   */
  lemma DeliveredToOppositeRole(snapshot: seq<ConnId>, tag: map<ConnId, Tag>, sender: Tag, content: string, outcome: Outcome, x: ConnId)
    ensures Emission(x, ChatMessage(sender.role, content)) in ChatEmissions(snapshot, tag, sender, content, outcome) <==>
      x in snapshot && x in tag && tag[x].role == TargetRole(sender.role)
  {
    FanoutExact(snapshot, tag, TargetRole(sender.role), ChatMessage(sender.role, content));
    if outcome.Success? {
      FanoutExact(snapshot, tag, Medic, AgentAnalysis(outcome.result));
    }
  }

  /** No chat message goes to a connection whose stored role is the sender's own, the sender included. */
  lemma NoEcho(snapshot: seq<ConnId>, tag: map<ConnId, Tag>, sender: Tag, content: string, outcome: Outcome)
    ensures forall m :: m in ChatEmissions(snapshot, tag, sender, content, outcome) && m.event.ChatMessage? ==>
      m.to in tag && tag[m.to].role != sender.role
  {
    FanoutExact(snapshot, tag, TargetRole(sender.role), ChatMessage(sender.role, content));
    if outcome.Success? {
      FanoutExact(snapshot, tag, Medic, AgentAnalysis(outcome.result));
    }
  }

  /** The analysis result goes to the medics of the snapshot and nowhere else; a failed analysis emits nothing. */
  lemma AnalysisOnlyToMedics(snapshot: seq<ConnId>, tag: map<ConnId, Tag>, sender: Tag, content: string, outcome: Outcome)
    ensures forall m :: m in ChatEmissions(snapshot, tag, sender, content, outcome) && m.event.AgentAnalysis? ==>
      outcome == Success(m.event.result) && m.to in snapshot && m.to in tag && tag[m.to].role == Medic
    ensures outcome.Success? ==> forall x :: x in snapshot && x in tag && tag[x].role == Medic ==>
      Emission(x, AgentAnalysis(outcome.result)) in ChatEmissions(snapshot, tag, sender, content, outcome)
  {
    FanoutExact(snapshot, tag, TargetRole(sender.role), ChatMessage(sender.role, content));
    if outcome.Success? {
      FanoutExact(snapshot, tag, Medic, AgentAnalysis(outcome.result));
    }
  }

  /**
   The analysis `forEach` emits a successful result to exactly the medics of
   the snapshot, once each over a room; a failure emits nothing.
   */
  lemma AnalysisPushExact(outcome: Outcome, snapshot: seq<ConnId>, tag: map<ConnId, Tag>)
    ensures outcome == Failure ==> AnalysisPush(outcome, snapshot, tag) == []
    ensures outcome.Success? ==> forall m :: m in AnalysisPush(outcome, snapshot, tag) <==>
      m.event == AgentAnalysis(outcome.result) && m.to in snapshot && m.to in tag && tag[m.to].role == Medic
    ensures Distinct(snapshot) ==> var r := AnalysisPush(outcome, snapshot, tag);
      forall i, j :: 0 <= i < j < |r| ==> r[i].to != r[j].to
  {
    if outcome.Success? {
      FanoutExact(snapshot, tag, Medic, AgentAnalysis(outcome.result));
      if Distinct(snapshot) {
        FanoutOncePerMember(snapshot, tag, Medic, AgentAnalysis(outcome.result));
        var r := AnalysisPush(outcome, snapshot, tag);
        assert r == Fanout(snapshot, tag, Medic, AgentAnalysis(outcome.result));
        assert forall i, j :: 0 <= i < j < |r| ==> r[i].to != r[j].to;
      }
    }
  }

  /**
   The delivery is emitted first and is the same whatever the analysis
   outcome; a failed analysis leaves exactly the delivery.
   */
  lemma DeliveryIndependentOfAnalysis(snapshot: seq<ConnId>, tag: map<ConnId, Tag>, sender: Tag, content: string, o1: Outcome, o2: Outcome)
    ensures var delivery := Fanout(snapshot, tag, TargetRole(sender.role), ChatMessage(sender.role, content));
      && delivery <= ChatEmissions(snapshot, tag, sender, content, o1)
      && ChatEmissions(snapshot, tag, sender, content, o1)[..|delivery|] == ChatEmissions(snapshot, tag, sender, content, o2)[..|delivery|]
      && ChatEmissions(snapshot, tag, sender, content, Failure) == delivery
  {
    var delivery := Fanout(snapshot, tag, TargetRole(sender.role), ChatMessage(sender.role, content));
    assert ChatEmissions(snapshot, tag, sender, content, Failure) == delivery + [];
  }

  /** A connection outside the snapshot receives nothing from the message or its analysis. */
  lemma OutsideRoomReceivesNothing(snapshot: seq<ConnId>, tag: map<ConnId, Tag>, sender: Tag, content: string, outcome: Outcome, x: ConnId)
    requires x !in snapshot
    ensures forall m :: m in ChatEmissions(snapshot, tag, sender, content, outcome) ==> m.to != x
  {
    FanoutExact(snapshot, tag, TargetRole(sender.role), ChatMessage(sender.role, content));
    if outcome.Success? {
      FanoutExact(snapshot, tag, Medic, AgentAnalysis(outcome.result));
    }
  }

  // ---------------------------------------------------------------------------
  // Sequences of handler calls
  // ---------------------------------------------------------------------------

  /** The rooms after the admitted joins `joins` (each a hash and a connection), in order. */
  function JoinAll(rooms: map<string, seq<ConnId>>, joins: seq<(string, ConnId)>): map<string, seq<ConnId>>
  {
    if joins == [] then rooms
    else
      var last := joins[|joins| - 1];
      AddMember(JoinAll(rooms, joins[..|joins| - 1]), last.0, last.1)
  }

  /** A connection not in room `hash` stays out of it through any joins that are not its own join of `hash`. */
  lemma {:induction false} StaysOutOfRoom(rooms: map<string, seq<ConnId>>, joins: seq<(string, ConnId)>, hash: string, c: ConnId)
    requires c !in RoomOf(rooms, hash)
    requires forall k :: 0 <= k < |joins| ==> joins[k] != (hash, c)
    ensures c !in RoomOf(JoinAll(rooms, joins), hash)
  {
    if joins != [] {
      StaysOutOfRoom(rooms, joins[..|joins| - 1], hash, c);
    }
  }

  /**
   Isolation: a connection that never joined room `hash` is never sent a
   message, or an analysis, of that room.
   */
  lemma {:induction false} NeverJoinedNeverReceives(rooms: map<string, seq<ConnId>>, joins: seq<(string, ConnId)>, hash: string, c: ConnId,
                                 tag: map<ConnId, Tag>, sender: Tag, content: string, outcome: Outcome)
    requires c !in RoomOf(rooms, hash)
    requires forall k :: 0 <= k < |joins| ==> joins[k] != (hash, c)
    ensures forall m :: m in ChatEmissions(RoomOf(JoinAll(rooms, joins), hash), tag, sender, content, outcome) ==> m.to != c
  {
    StaysOutOfRoom(rooms, joins, hash, c);
    OutsideRoomReceivesNothing(RoomOf(JoinAll(rooms, joins), hash), tag, sender, content, outcome, c);
  }

  /**
   After `c` disconnects, and whatever other connections join afterwards, no
   room sends `c` a message or an analysis.
   */
  lemma {:induction false} DisconnectedNeverReceives(rooms: map<string, seq<ConnId>>, c: ConnId, joins: seq<(string, ConnId)>, hash: string,
                                  tag: map<ConnId, Tag>, sender: Tag, content: string, outcome: Outcome)
    requires forall k :: 0 <= k < |joins| ==> joins[k].1 != c
    ensures forall m :: m in ChatEmissions(RoomOf(JoinAll(LeaveAll(rooms, c), joins), hash), tag, sender, content, outcome) ==> m.to != c
  {
    NeverJoinedNeverReceives(LeaveAll(rooms, c), joins, hash, c, tag, sender, content, outcome);
  }

  /**
   A second admitted join moves the stored tag but not the membership: the
   connection stays in its first room and, with its new role, still receives
   that room's messages meant for that role.
   */
  lemma SecondJoinKeepsFirstRoom(rooms: map<string, seq<ConnId>>, tag: map<ConnId, Tag>, c: ConnId, first: string, second: Tag,
                                 sender: Tag, content: string, outcome: Outcome)
    requires c in RoomOf(rooms, first)
    requires TargetRole(sender.role) == second.role
    ensures var rooms' := AddMember(rooms, second.hash, c);
      && c in RoomOf(rooms', first)
      && Emission(c, ChatMessage(sender.role, content)) in ChatEmissions(RoomOf(rooms', first), tag[c := second], sender, content, outcome)
  {
    var rooms' := AddMember(rooms, second.hash, c);
    assert c in RoomOf(rooms', first);
    DeliveredToOppositeRole(RoomOf(rooms', first), tag[c := second], sender, content, outcome, c);
  }

  /** The transcripts after the appends `sends` (each a hash and an entry), in order. */
  function Replay(history: map<string, seq<Entry>>, sends: seq<(string, Entry)>): map<string, seq<Entry>>
  {
    if sends == [] then history
    else
      var last := sends[|sends| - 1];
      AppendEntry(Replay(history, sends[..|sends| - 1]), last.0, last.1)
  }

  /** The entries of `sends` addressed to `hash`, in sending order. */
  function EntriesFor(sends: seq<(string, Entry)>, hash: string): seq<Entry>
  {
    if sends == [] then []
    else
      var last := sends[|sends| - 1];
      EntriesFor(sends[..|sends| - 1], hash) + (if last.0 == hash then [last.1] else [])
  }

  /**
   Each transcript keeps its messages in exactly the order they were sent,
   whichever roles sent them and whatever was sent to other hashes between them.
   */
  lemma {:induction false} TranscriptInSendOrder(history: map<string, seq<Entry>>, sends: seq<(string, Entry)>, hash: string)
    ensures Transcript(Replay(history, sends), hash) == Transcript(history, hash) + EntriesFor(sends, hash)
  {
    if sends != [] {
      TranscriptInSendOrder(history, sends[..|sends| - 1], hash);
    }
  }

  // ---------------------------------------------------------------------------
  // Registry and admission together
  // ---------------------------------------------------------------------------

  /**
   Once a session is created for a non-empty patient id, the patient joins with
   that id and no other, and a medic joins without presenting one.
   */
  lemma AdmittedAfterAddSession(sessions: map<string, string>, hash: string, patientId: string, claimed: Option<string>)
    requires patientId != ""
    ensures Admit(Bind(sessions, hash, patientId), JoinRequest(hash, Patient, claimed)) == Admitted <==> claimed == Some(patientId)
    ensures Admit(Bind(sessions, hash, patientId), JoinRequest(hash, Medic, None)) == Admitted
  {
  }

  /** After a session is removed, every join on its hash is refused as invalid. */
  lemma RefusedAfterRemoveSession(sessions: map<string, string>, req: JoinRequest)
    ensures Admit(Unbind(sessions, req.hash), req) == Refused(InvalidSession)
  {
  }

  /**
   The end-to-end scenario: hash "abc123" bound to "P-001"; a medic joins, the
   patient joins, an impostor is refused; the patient's message reaches the
   medic, a successful analysis reaches the medic too, the patient receives
   nothing, and the message is the transcript's only entry.
   */
  lemma Consultation(outcome: Outcome)
    ensures var sessions := Bind(map[], "abc123", "P-001");
      var c1 := JoinRequest("abc123", Medic, None);
      var c2 := JoinRequest("abc123", Patient, Some("P-001"));
      var c3 := JoinRequest("abc123", Patient, Some("P-999"));
      var rooms := AddMember(AddMember(map[], "abc123", "C1"), "abc123", "C2");
      var tag := map["C1" := Tag(Medic, "abc123"), "C2" := Tag(Patient, "abc123")];
      var emitted := ChatEmissions(RoomOf(rooms, "abc123"), tag, tag["C2"], "Estou com febre", outcome);
      && Admit(sessions, c1) == Admitted
      && Admit(sessions, c2) == Admitted
      && Admit(sessions, c3) == Refused(Forbidden)
      && emitted == [Emission("C1", ChatMessage(Patient, "Estou com febre"))]
                    + (if outcome.Success? then [Emission("C1", AgentAnalysis(outcome.result))] else [])
      && (forall m :: m in emitted ==> m.to == "C1")
      && Transcript(AppendEntry(map[], "abc123", Entry(Patient, "Estou com febre")), "abc123")
           == [Entry(Patient, "Estou com febre")]
  {
    var rooms := AddMember(AddMember(map[], "abc123", "C1"), "abc123", "C2");
    assert RoomOf(rooms, "abc123") == ["C1", "C2"];
    var tag := map["C1" := Tag(Medic, "abc123"), "C2" := Tag(Patient, "abc123")];
    var ev := ChatMessage(Patient, "Estou com febre");
    assert ["C1", "C2"][..1] == ["C1"];
    assert ["C1"][..0] == [];
    assert Fanout(["C1"], tag, Medic, ev) == [Emission("C1", ev)];
    assert Fanout(["C1", "C2"], tag, Medic, ev) == [Emission("C1", ev)];
    if outcome.Success? {
      var an := AgentAnalysis(outcome.result);
      assert Fanout(["C1"], tag, Medic, an) == [Emission("C1", an)];
      assert Fanout(["C1", "C2"], tag, Medic, an) == [Emission("C1", an)];
    } else {
      assert ChatEmissions(["C1", "C2"], tag, tag["C2"], "Estou com febre", outcome) == [Emission("C1", ev)] + [];
    }
  }

  /**
   The consultation room after the handlers have run: the registry binds
   "abc123" to "P-001", the medic C1 and the patient C2 join, and the
   impostor C3 is refused.
   */
  method OpenConsultation() returns (relay: Relay)
    ensures fresh(relay)
    ensures relay.Valid()
    ensures relay.registry.sessions == map["abc123" := "P-001"]
    ensures relay.tag == map["C1" := Tag(Medic, "abc123"), "C2" := Tag(Patient, "abc123")]
    ensures relay.rooms == AddMember(AddMember(map[], "abc123", "C1"), "abc123", "C2")
    ensures relay.history == map[]
    ensures relay.outbox == [Emission("C3", Error(Forbidden))]
  {
    var registry := new SessionRegistry();
    registry.AddSession("abc123", "P-001");
    relay := new Relay(registry);
    Consultation(Failure);
    relay.JoinRoom("C1", JoinRequest("abc123", Medic, None));
    relay.JoinRoom("C2", JoinRequest("abc123", Patient, Some("P-001")));
    relay.JoinRoom("C3", JoinRequest("abc123", Patient, Some("P-999")));
  }

  /**
   The same consultation driven through the handlers themselves: the patient
   sends one message into the room `OpenConsultation` sets up. Returns what was
   emitted and the transcript of "abc123".
   */
  method ConsultationThroughHandlers(analyze: (Option<string>, seq<Entry>) -> Outcome)
    returns (emitted: seq<Emission>, transcript: seq<Entry>)
    ensures var entry := Entry(Patient, "Estou com febre");
      var outcome := analyze(Some("P-001"), [entry]);
      emitted == [Emission("C3", Error(Forbidden)), Emission("C1", ChatMessage(Patient, "Estou com febre"))]
                 + (if outcome.Success? then [Emission("C1", AgentAnalysis(outcome.result))] else [])
    ensures transcript == [Entry(Patient, "Estou com febre")]
  {
    var relay := OpenConsultation();
    var entry := Entry(Patient, "Estou com febre");
    ghost var outcome := analyze(Some("P-001"), [entry]);
    ghost var delivered := ChatEmissions(RoomOf(relay.rooms, "abc123"), relay.tag, Tag(Patient, "abc123"), "Estou com febre", outcome);
    assert delivered == [Emission("C1", ChatMessage(Patient, "Estou com febre"))]
                        + (if outcome.Success? then [Emission("C1", AgentAnalysis(outcome.result))] else []) by {
      Consultation(outcome);
    }
    assert relay.tag["C2"] == Tag(Patient, "abc123") && Tagged(relay.tag, "C2");
    assert Lookup(relay.registry.sessions, "abc123") == Some("P-001");
    relay.ChatMessageFrom("C2", ChatRequest("abc123", "Estou com febre"), analyze);
    assert Transcript(relay.history, "abc123") == [entry];
    assert relay.outbox == [Emission("C3", Error(Forbidden))] + delivered;
    emitted := relay.outbox;
    transcript := Transcript(relay.history, "abc123");
  }
}
