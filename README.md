# Session-gated room relay

This project models the real-time core of a medic–patient chat backend:

- The **session registry** is an in-memory table from an opaque session hash to the one patient id allowed under it. It has three operations: add, get and remove.
- The **socket relay** has three handlers:
  - `join_room` admits a connection to the room named by a hash once the registry vouches for the hash. A `patient` must also present the bound patient id.
  - `chat_message` appends the message to the per-hash transcript and delivers it to the room's members of the opposite role. It then pushes an analysis of the transcript to the room's `medic` members.
  - `disconnect` only logs.

Files:

- `sessions.dfy`, module `Sessions`: the registry as a class (`SessionRegistry`) over a `map<string, string>`, plus the functions `Lookup`, `Bind` and `Unbind` that specify its three operations.
- `server.dfy`, module `Server`: the relay as a class (`Relay`) with these fields:
  - the registry it consults;
  - `tag`, the `(role, hash)` stored on each connection;
  - `rooms`, the members of each room in join order;
  - `history`, the per-hash transcript;
  - `outbox`, every event emitted, in order.

  It also holds the pure functions the handlers are proved against: `Admit`, `TargetRole`, `AddMember`, `LeaveAll`, `AppendEntry`, `Fanout` and `ChatEmissions`.
- `relay_properties.dfy`, module `RelayProperties`: lemmas about one message and about sequences of handler calls. They cover delivery, isolation, analysis routing, transcript order, disconnect, and the registry and admission together.

Modelling choices:

- Each handler is one atomic step. `fetchSockets` is a snapshot of the room (`RoomOf(rooms, hash)`) taken inside that step.
- The external analysis call is a parameter `analyze: (Option<string>, seq<Entry>) -> Outcome`, where `Outcome` is `Success(result)` or `Failure`. The caller picks any function. The handler passes it the current binding of the hash and the whole transcript after the append.
- Roles, hashes and message contents are strings, because the payloads are untyped at run time. A falsy stored role or hash (`undefined` or `""`) is represented as `""`. The optional `patient_id` is an `Option<string>`.
- Rooms are insertion-ordered sets, so they are sequences without duplicates. This makes the order of the `forEach` emissions explicit.
- On disconnect, the socket layer itself takes the connection out of every room and deletes any room left empty. The connection's stored data disappears with it. `Relay.Disconnect` models that, and the handler adds nothing else.

Behaviour of the code worth noting:

- A second admitted `join_room` on the same connection overwrites its stored role and hash (server.ts:38-39). The connection also stays a member of its first room (server.ts:37). See `SecondJoinKeepsFirstRoom`.
- The roles in use are `"medic"` and `"patient"`. Only `"patient"` is checked against the bound patient id (server.ts:33); any other role is admitted on a bound hash alone. The target role is `"patient"` only for a `"medic"` sender (server.ts:53), so a message from any other role goes to the medics.
- A hash bound to an empty patient id reads as falsy, so every join on it is refused with "Sessão inválida" (server.ts:32).
- `chat_message` ignores the hash in its payload and routes by the hash stored on the connection at join time (server.ts:45).
- The `disconnect` handler only logs (server.ts:76-78). Taking the connection out of its rooms is done by the socket layer.

## Model

| member | source | states |
|---|---|---|
| Sessions.Bind | backend/src/api/services/sessions.service.ts:5-7 | after adding `(hash, id)`, reading `hash` gives `id`, even if `hash` was already bound (it is overwritten, no uniqueness check); every other hash keeps its binding or its absence; the key set grows by at most `hash` |
| Sessions.Unbind | backend/src/api/services/sessions.service.ts:13-15 | after removal `hash` reads as absent; other hashes are untouched; removing an absent hash leaves the registry equal to what it was (idempotent) |
| Sessions.SessionRegistry.constructor | backend/src/api/services/sessions.service.ts:2 | the registry starts empty |
| Sessions.SessionRegistry.AddSession | backend/src/api/services/sessions.service.ts:5-7 | the new table is `Bind` of the old one, so `GetPatientId(hash)` now returns the added id |
| Sessions.SessionRegistry.GetPatientId | backend/src/api/services/sessions.service.ts:9-11 | a pure read (no modifies clause): present exactly when the hash is bound, and then the bound id; absent (undefined) for an unknown hash |
| Sessions.SessionRegistry.RemoveSession | backend/src/api/services/sessions.service.ts:13-15 | the new table is `Unbind` of the old one, so `GetPatientId(hash)` is absent afterwards |
| Server.Admit | backend/src/server.ts:30-35 | a join is admitted iff the hash has a truthy binding and, when the role is `"patient"`, the claimed id equals the bound id; any other role needs no id; an unbound hash is refused with "Sessão inválida" whatever the role and id; every other refusal is the permission error, which does not include the bound id |
| Server.TargetRole | backend/src/server.ts:53 | the target role is never the sender's role, is always `"medic"` or `"patient"`, and is `"patient"` exactly for a medic sender |
| Server.AddMember | backend/src/server.ts:37 | joining a room adds the connection once: the room's members become the old members plus the connection, the old order is a prefix, duplicates never arise, other rooms are unchanged |
| Server.Without | backend/src/server.ts:76-78 | removing a connection from a room's members keeps exactly the other members, in their order, duplicate-free; a room the connection is not in is returned unchanged |
| Server.LeaveAll | backend/src/server.ts:76-78 | after a disconnect the connection is in no room; every remaining room is the old room with only that connection taken out, so the other members keep their memberships and their join order; no room is left empty |
| Server.AppendEntry | backend/src/server.ts:48-50 | the transcript of `hash` becomes the old one (empty if absent) with exactly one entry added at the end; every other transcript is unchanged |
| Server.JoinKeepsConsistent | backend/src/server.ts:37-39 | an admitted join keeps the relay invariant: rooms are non-empty duplicate-free sets of tagged connections, and every tagged connection is in the room its stored hash names |
| Server.LeaveKeepsConsistent | backend/src/server.ts:76-78 | a disconnect keeps the same relay invariant |
| Server.Relay.constructor | backend/src/server.ts:23 | the relay starts with no tags, no rooms, an empty transcript store and nothing emitted, over the given registry |
| Server.Relay.JoinRoom | backend/src/server.ts:28-41 | if `Admit` refuses, exactly one error event with its reason goes to the joining connection and tags and rooms are unchanged; if it admits, the connection's tag becomes exactly `(role, hash)` (overwriting any earlier one), the connection is added to room `hash`, and nothing is emitted; transcripts and the registry never change |
| Server.Relay.ChatMessageFrom | backend/src/server.ts:43-74 | a message from a connection without a truthy stored role and hash changes nothing and emits nothing; otherwise the transcript of the stored hash gets exactly one entry `(role, content)` appended, and the outbox grows by `ChatEmissions` over the room snapshot, with the analysis run on the transcript that already holds the new entry; tags, rooms and the registry are unchanged |
| Server.Relay.Broadcast | backend/src/server.ts:52-73 | the emissions after the append are the delivery to the opposite role over one room snapshot, followed by the analysis push to that snapshot's medics, or by nothing on failure |
| Server.Relay.EmitTo | backend/src/server.ts:55-59 | the `forEach` loop appends exactly `Fanout(snapshot, tag, role, ev)` to the outbox |
| Server.Relay.Disconnect | backend/src/server.ts:76-78 | transcripts, the outbox and the registry are unchanged; the connection loses its tag and leaves every room (the removal is the socket layer's) |
| RelayProperties.FanoutExact | backend/src/server.ts:54-59 | (carries the properties of `Fanout`, which has no contract of its own) a snapshot's `forEach` emits the event to exactly the snapshot members whose stored role matches, and to nobody else |
| RelayProperties.FanoutOncePerMember | backend/src/server.ts:54-59 | over a room (no duplicate members) each recipient receives the event once |
| RelayProperties.FanoutInSnapshotOrder | backend/src/server.ts:55-59 | emissions follow the snapshot order: the emissions for `a + b` are those for `a` followed by those for `b` |
| RelayProperties.AnalysisPushExact | backend/src/server.ts:68-70 | (carries the properties of `AnalysisPush`) a failed analysis emits nothing; on success the analysis event with that result goes to exactly the snapshot members whose stored role is `"medic"`, and over a room each of them receives it once |
| RelayProperties.DeliveredToOppositeRole | backend/src/server.ts:53-59 | a message reaches a connection iff that connection is in the sender's room snapshot and its stored role is the opposite of the sender's, whatever the analysis outcome |
| RelayProperties.NoEcho | backend/src/server.ts:53-57 | no chat message goes to a connection with the sender's own role, including the sender |
| RelayProperties.AnalysisOnlyToMedics | backend/src/server.ts:61-73 | every analysis emission carries the successful result and goes to a medic of the snapshot; on success every such medic gets it; a failure emits nothing |
| RelayProperties.DeliveryIndependentOfAnalysis | backend/src/server.ts:52-73 | (carries the properties of `ChatEmissions`) the delivery is emitted first and is identical for every analysis outcome; with a failed analysis the delivery is all that is emitted, so a caught failure undoes nothing |
| RelayProperties.OutsideRoomReceivesNothing | backend/src/server.ts:54 | a connection outside the room snapshot receives neither the message nor the analysis |
| RelayProperties.StaysOutOfRoom | backend/src/server.ts:37 | a connection not in room `hash` stays out of it through any sequence of joins that does not include its own join of `hash` |
| RelayProperties.NeverJoinedNeverReceives | backend/src/server.ts:37-59 | isolation: a connection that never joined room `hash` is never sent that room's messages or analyses, whatever others join |
| RelayProperties.DisconnectedNeverReceives | backend/src/server.ts:76-78 | after a connection disconnects, no room sends it a message or an analysis, whatever other connections join afterwards |
| RelayProperties.WithoutDistributes | backend/src/server.ts:76-78 | taking a connection out of a concatenation of member lists is taking it out of each part, so removal never reorders the members around it |
| RelayProperties.LeaveKeepsJoinOrder | backend/src/server.ts:76-78 | when a connection leaves a room, the members who joined before it and after it remain, in their join order, with nothing else changed |
| RelayProperties.SecondJoinKeepsFirstRoom | backend/src/server.ts:37-39 | a second admitted join overwrites the stored tag but keeps the first room's membership, so the connection still receives that room's messages addressed to its new role |
| RelayProperties.TranscriptInSendOrder | backend/src/server.ts:48-50 | after any sequence of appends, each hash's transcript is its old content followed by exactly the entries sent to that hash, in sending order, whatever went to other hashes in between |
| RelayProperties.AdmittedAfterAddSession | backend/src/server.ts:30-35 | once a session is added for a non-empty patient id, a patient join on its hash is admitted iff it presents that id, and a medic join with no id is admitted |
| RelayProperties.RefusedAfterRemoveSession | backend/src/server.ts:30-32 | after a session is removed, every join on its hash is refused with "Sessão inválida" |
| RelayProperties.Consultation | backend/src/server.ts:28-74 | the end-to-end scenario, for every analysis outcome: with "abc123" bound to "P-001", a medic C1 and the patient C2 are admitted and an impostor patient gets the permission error; the patient's "Estou com febre" goes to C1 alone, followed by the analysis to C1 when it succeeds; C2 receives nothing; the message is the transcript's only entry |
| RelayProperties.OpenConsultation | backend/src/server.ts:28-41 | driving `SessionRegistry.AddSession` and three `Relay.JoinRoom` calls: the registry binds "abc123" to "P-001", C1 is tagged medic and C2 patient, both in room "abc123" in join order, the relay invariant holds, and the impostor C3 has received exactly the permission error |
| RelayProperties.ConsultationThroughHandlers | backend/src/server.ts:43-74 | the same scenario driven through the handlers, `Relay.ChatMessageFrom` after `OpenConsultation`: the outbox is the impostor's error, then the message to C1, then the analysis to C1 exactly when the analysis of the bound id and the one-entry transcript succeeds; the transcript holds exactly the message |

## Left out

- Logging (`console.log`, `console.error`) is left out: it has no effect on relay state.
- The analysis service (the OpenAI call and its schema validation) is an opaque function parameter. The patient-metadata store is not part of this model.
- Session minting is outside the core. This covers the random hash from `crypto.randomBytes`, the session URL, and the HTTP controller. The one condition kept from it is that the patient id is non-empty (actions.controller.ts:22), as the precondition of `AdmittedAfterAddSession`.
- The Express and Supabase layers, the frontend, and the command-line socket clients are left out. They are I/O and UI.
- The real asynchrony of `await fetchSockets()` and `await analyze(...)` is not modelled: each handler is one atomic step. So analyses that complete out of order across messages are not modelled. Nor are roles that change between the snapshot and the analysis push.
- Keys that a plain JavaScript object inherits are not modelled: the registry and transcripts are maps of their own entries only. In the code a hash such as `"toString"` reads as a truthy value before any add, and a write under `"__proto__"` creates no entry. So `Sessions.Bind`'s read-back and `Sessions.Unbind`'s absence do not hold for such keys. The only caller of the add passes a hex string from `crypto.randomBytes` (actions.controller.ts:25), which is never such a key.
- The private room that the socket layer gives each connection under its own id is not modelled.
- Payload values that are not strings (a numeric role, say) are not modelled.
- Unique connection ids are not modelled. `DisconnectedNeverReceives` assumes later joins come from other connections, as fresh socket ids ensure.
- CORS, server start-up and the transport mechanics are left out.
