/** The reconnecting client as one thread runs it: handles, lazy sessions, one retry, and fail-fast. */
module Reconnect {
  import opened Text
  import opened Cooldown

  datatype Key = Key(sym: nat, modifiers: nat, isPress: bool)

  /** A reply of the daemon; `invalid` is a reply with the session-invalid action. */
  datatype Reply = Reply(invalid: bool, actions: seq<string>)

  datatype ProcessKeyError = Unavailable | UnknownHandle

  /** A key as it went out: the session id it was sent with. */
  datatype SentKey = SentKey(sid: nat, key: Key)

  /** The daemon connection. What each call will return is drawn from two scripts; when a script is used up,
      calls fail. Every behaviour that one client can see is some pair of scripts. */
  class Transport {
    var sessionIds: seq<Option<nat>>
    var replies: seq<Option<Reply>>
    var sent: seq<SentKey>
    var created: seq<string>
    var destroyed: seq<nat>

    constructor (sessionIds: seq<Option<nat>>, replies: seq<Option<Reply>>)
      ensures this.sessionIds == sessionIds && this.replies == replies
      ensures sent == [] && created == [] && destroyed == []
    {
      this.sessionIds, this.replies, sent, created, destroyed := sessionIds, replies, [], [], [];
    }

    method CreateSession(appId: string) returns (id: Option<nat>)
      modifies this`sessionIds, this`created
      ensures created == old(created) + [appId]
      ensures id == if old(sessionIds) == [] then None else old(sessionIds)[0]
      ensures sessionIds == if old(sessionIds) == [] then [] else old(sessionIds)[1..]
    {
      created := created + [appId];
      if sessionIds == [] { return None; }
      id, sessionIds := sessionIds[0], sessionIds[1..];
    }

    method ProcessKey(sid: nat, key: Key) returns (r: Option<Reply>)
      modifies this`replies, this`sent
      ensures sent == old(sent) + [SentKey(sid, key)]
      ensures r == if old(replies) == [] then None else old(replies)[0]
      ensures replies == if old(replies) == [] then [] else old(replies)[1..]
    {
      sent := sent + [SentKey(sid, key)];
      if replies == [] { return None; }
      r, replies := replies[0], replies[1..];
    }

    method DestroySession(sid: nat)
      modifies this`destroyed
      ensures destroyed == old(destroyed) + [sid]
    {
      destroyed := destroyed + [sid];
    }
  }

  /** One handle: the application, and its daemon session; 0 means that it has none yet. */
  datatype SessionEntry = SessionEntry(appId: string, sid: nat)

  /** The session ids of all handles are forgotten. */
  function Forgotten(table: map<nat, SessionEntry>): map<nat, SessionEntry> {
    map h | h in table :: table[h].(sid := 0)
  }

  class ReconnectingClient {
    const transport: Transport
    var sessions: map<nat, SessionEntry>
    var lastFailure: Option<nat>
    var failures: nat
    var nextHandle: nat
    var clock: nat

    constructor (transport: Transport)
      ensures this.transport == transport && sessions == map[] && lastFailure == None && failures == 0
      ensures nextHandle == 1 && clock == 0
    {
      this.transport, sessions, lastFailure, failures, nextHandle, clock := transport, map[], None, 0, 1, 0;
    }

    predicate InCooldown()
      reads this
    {
      lastFailure.Some? && Elapsed(clock, lastFailure.value) < CurrentCooldown(failures)
    }

    /** What a recorded failure leaves behind. */
    predicate IsFailed(failures0: nat)
      reads this
    {
      && lastFailure == Some(clock) && failures == SaturatingInc(failures0)
      && forall h | h in sessions :: sessions[h].sid == 0
    }

    method MarkFailed()
      modifies this`lastFailure, this`failures, this`sessions
      ensures IsFailed(old(failures)) && InCooldown()
      ensures sessions == Forgotten(old(sessions))
    {
      CooldownMonotone(0, SaturatingInc(failures));
      failures := SaturatingInc(failures);
      lastFailure := Some(clock);
      sessions := Forgotten(sessions);
    }

    method MarkRecovered()
      modifies this`lastFailure, this`failures
      ensures lastFailure == None && failures == 0 && !InCooldown()
    {
      failures, lastFailure := 0, None;
    }

    /** A handle is always given out; its session may be left for later. */
    method CreateHandle(appId: string) returns (handle: nat)
      modifies this, transport
      ensures handle == old(nextHandle) && nextHandle == handle + 1 && clock == old(clock)
      ensures handle in sessions && sessions[handle].appId == appId
      ensures forall h | h in old(sessions) && h != handle :: h in sessions && sessions[h].appId == old(sessions)[h].appId
      ensures transport.sent == old(transport.sent)
      ensures old(InCooldown()) ==> sessions[handle].sid == 0 && transport.created == old(transport.created)
      ensures !old(InCooldown()) ==>
                && transport.created == old(transport.created) + [appId]
                && (old(transport.sessionIds) == [] || old(transport.sessionIds)[0].None? ==> IsFailed(old(failures)))
                && (old(transport.sessionIds) != [] && old(transport.sessionIds)[0].Some? ==>
                      sessions == old(sessions)[handle := SessionEntry(appId, old(transport.sessionIds)[0].value)])
    {
      handle := nextHandle;
      nextHandle := nextHandle + 1;
      var sid := 0;
      if !InCooldown() {
        var id := transport.CreateSession(appId);
        if id.Some? {
          sid := id.value;
        } else {
          MarkFailed();
        }
      }
      sessions := sessions[handle := SessionEntry(appId, sid)];
    }

    /** The daemon is told only about sessions it may know, and not at all in cooldown. */
    method DestroyHandle(handle: nat)
      modifies this`sessions, transport
      ensures sessions == old(sessions) - {handle}
      ensures transport.sent == old(transport.sent) && transport.created == old(transport.created)
      ensures transport.destroyed == old(transport.destroyed)
              + (if handle in old(sessions) && old(sessions)[handle].sid != 0 && !old(InCooldown())
                 then [old(sessions)[handle].sid] else [])
    {
      if handle !in sessions {
        return;
      }
      var e := sessions[handle];
      sessions := sessions - {handle};
      if e.sid != 0 && !InCooldown() {
        transport.DestroySession(e.sid);
      }
    }

    /** The session id of a handle, made on demand. */
    method EnsureDaemonSession(handle: nat) returns (r: Result<nat, ProcessKeyError>)
      modifies this`sessions, this`lastFailure, this`failures, transport`sessionIds, transport`created
      ensures sessions.Keys == old(sessions.Keys)
      ensures r == Err(UnknownHandle) <==> handle !in old(sessions)
      ensures r.Ok? ==>
                && sessions[handle].sid == r.value
                && sessions == old(sessions)[handle := old(sessions)[handle].(sid := r.value)]
                && lastFailure == old(lastFailure) && failures == old(failures)
      ensures r == Err(UnknownHandle) ==>
                sessions == old(sessions) && lastFailure == old(lastFailure) && failures == old(failures)
      ensures r == Err(Unavailable) ==> IsFailed(old(failures)) && InCooldown()
    {
      if handle !in sessions { return Err(UnknownHandle); }
      var entry := sessions[handle];
      if entry.sid != 0 {
        assert sessions == sessions[handle := entry.(sid := entry.sid)];
        return Ok(entry.sid);
      }
      var id := transport.CreateSession(entry.appId);
      if id.None? {
        MarkFailed();
        return Err(Unavailable);
      }
      sessions := sessions[handle := sessions[handle].(sid := id.value)];
      return Ok(id.value);
    }

    method RecreateDaemonSession(handle: nat) returns (id: Option<nat>)
      modifies this`sessions, transport`sessionIds, transport`created
      ensures sessions.Keys == old(sessions.Keys)
      ensures id.Some? ==>
                && handle in old(sessions)
                && sessions == old(sessions)[handle := old(sessions)[handle].(sid := id.value)]
      ensures id.None? ==> sessions == old(sessions)
      ensures transport.created == if handle in old(sessions) then old(transport.created) + [old(sessions)[handle].appId]
                                   else old(transport.created)
    {
      if handle !in sessions { return None; }
      id := transport.CreateSession(sessions[handle].appId);
      if id.Some? {
        sessions := sessions[handle := sessions[handle].(sid := id.value)];
      }
    }

    /** Sends a key. In cooldown nothing is sent and nothing changes. Otherwise the key goes out at most
        twice, the second time only after a reply that the session is invalid; any other failure is recorded
        at once and nothing is tried again. */
    method ProcessKey(handle: nat, key: Key) returns (r: Result<seq<string>, ProcessKeyError>)
      modifies this`sessions, this`lastFailure, this`failures, transport
      ensures sessions.Keys == old(sessions.Keys)
      ensures old(InCooldown()) ==>
                && r == Err(Unavailable) && sessions == old(sessions) && failures == old(failures)
                && transport.sent == old(transport.sent) && transport.created == old(transport.created)
      ensures !old(InCooldown()) && handle !in old(sessions) ==>
                r == Err(UnknownHandle) && transport.sent == old(transport.sent) && failures == old(failures)
      ensures r.Ok? ==>
                && lastFailure == None && failures == 0
                && |transport.sent| > |old(transport.sent)|
                && sessions[handle].sid == transport.sent[|transport.sent| - 1].sid
      ensures r == Err(Unavailable) && !old(InCooldown()) ==> IsFailed(old(failures)) && InCooldown()
      ensures old(transport.sent) <= transport.sent
      ensures var more := transport.sent[|old(transport.sent)|..];
        && |more| <= 2 && (forall i | 0 <= i < |more| :: more[i].key == key)
        && (|more| == 2 ==> old(transport.replies) != [] && old(transport.replies)[0].Some?
                            && old(transport.replies)[0].value.invalid)
        && (r.Ok? ==> |old(transport.replies)| >= |more| && old(transport.replies)[|more| - 1].Some?
                      && r.value == old(transport.replies)[|more| - 1].value.actions)
    {
      if InCooldown() { return Err(Unavailable); }
      var daemonId := EnsureDaemonSession(handle);
      if daemonId.Err? { return Err(daemonId.error); }
      var reply := transport.ProcessKey(daemonId.value, key);
      if reply.None? {
        MarkFailed();
        return Err(Unavailable);
      }
      if !reply.value.invalid {
        MarkRecovered();
        return Ok(reply.value.actions);
      }
      var newId := RecreateDaemonSession(handle);
      if newId.None? {
        MarkFailed();
        return Err(Unavailable);
      }
      var again := transport.ProcessKey(newId.value, key);
      if again.None? {
        MarkFailed();
        return Err(Unavailable);
      }
      MarkRecovered();
      return Ok(again.value.actions);
    }
  }
}
