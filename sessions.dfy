/**
 The session registry: an in-memory table from an opaque session hash to the
 one patient id allowed to join under that hash. Bindings are created when a
 medic asks for a new session, read on every join attempt, and may be
 removed. There is no uniqueness check and no expiry.
 */
module Sessions {

  /** `Some(v)` for a present entry, `None` for the `undefined` a missing key reads as. */
  datatype Option<T> = None | Some(value: T)

  /** What reading `sessions[hash]` yields. */
  function Lookup(sessions: map<string, string>, hash: string): Option<string>
  {
    if hash in sessions then Some(sessions[hash]) else None
  }

  /** The registry after `sessions[hash] = patientId`. */
  function Bind(sessions: map<string, string>, hash: string, patientId: string): (r: map<string, string>)
    // the new binding is the one read back, whatever was there before
    ensures Lookup(r, hash) == Some(patientId)
    // every other hash keeps its binding, or its absence
    ensures forall h :: h != hash ==> Lookup(r, h) == Lookup(sessions, h)
    // an already-bound hash is overwritten, not duplicated
    ensures r.Keys == sessions.Keys + {hash}
  {
    sessions[hash := patientId]
  }

  /** The registry after `delete sessions[hash]`. */
  function Unbind(sessions: map<string, string>, hash: string): (r: map<string, string>)
    ensures Lookup(r, hash) == None
    ensures forall h :: h != hash ==> Lookup(r, h) == Lookup(sessions, h)
    // removing an absent hash is a no-op, so removal is idempotent
    ensures hash !in sessions ==> r == sessions
    ensures r.Keys == sessions.Keys - {hash}
  {
    sessions - {hash}
  }

  /** The module-level record behind `SessionsManager`, with its three static operations. */
  class SessionRegistry {
    var sessions: map<string, string>

    constructor ()
      ensures sessions == map[]
    {
      sessions := map[];
    }

    method AddSession(hash: string, patientId: string)
      modifies this
      ensures sessions == Bind(old(sessions), hash, patientId)
      ensures Lookup(sessions, hash) == Some(patientId)
    {
      sessions := sessions[hash := patientId];
    }

    /** Pure read: present exactly for a bound hash, and then the bound id. */
    method GetPatientId(hash: string) returns (r: Option<string>)
      ensures r.Some? <==> hash in sessions
      ensures r.Some? ==> r.value == sessions[hash]
    {
      if hash in sessions {
        r := Some(sessions[hash]);
      } else {
        r := None;
      }
    }

    method RemoveSession(hash: string)
      modifies this
      ensures sessions == Unbind(old(sessions), hash)
      ensures Lookup(sessions, hash) == None
    {
      sessions := sessions - {hash};
    }
  }
}
