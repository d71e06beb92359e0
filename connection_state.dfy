/**
 * activemq-cpp ConnectionState: what a connection keeps track of for recovery, that is its
 * ConnectionInfo, its transactions, its sessions (one SessionState per session id, starting
 * with the default session), its temporary destinations and a `disposed` flag that
 * `shutdown` sets once.
 *
 * The objects kept in the collections (transaction states, temporary destinations,
 * recovering pull consumers) are opaque here; only SessionState's shutdown is observed, as
 * a count of the times it ran.
 */
module ConnectionStates {
  import opened Common

  const NULL_TEXT: string := "NULL"

  /** The connection id and text form of a ConnectionInfo. */
  datatype ConnectionInfo = ConnectionInfo(connectionId: string, text: string)

  /** A SessionId: the connection it belongs to and its number within it. */
  datatype SessionId = SessionId(connectionId: string, value: int)

  /** An object this model does not look inside, by identity. */
  datatype Handle = Handle(id: int)

  /** The IllegalStateException checkShutdown throws. */
  datatype StateError = AlreadyDisposed

  /** The state of one session; shutting it down is counted. */
  class SessionState {
    const sessionId: SessionId
    var shutdowns: nat

    constructor (id: SessionId)
      ensures sessionId == id && shutdowns == 0
    {
      sessionId := id;
      shutdowns := 0;
    }

    method Shutdown()
      modifies this
      ensures shutdowns == old(shutdowns) + 1
    {
      shutdowns := shutdowns + 1;
    }
  }

  class ConnectionState {
    var info: Option<ConnectionInfo>
    var transactions: map<Handle, Handle>
    var sessions: map<SessionId, SessionState>
    var tempDestinations: seq<Handle>
    var disposed: bool
    var connectionInterruptProcessingComplete: bool
    var recoveringPullConsumers: map<Handle, Handle>

    /** A new state holds only the default session, numbered -1, and is not disposed. */
    constructor (connection: ConnectionInfo)
      ensures info == Some(connection)
      ensures sessions.Keys == {SessionId(connection.connectionId, -1)}
      ensures fresh(sessions[SessionId(connection.connectionId, -1)])
      ensures sessions[SessionId(connection.connectionId, -1)].shutdowns == 0
      ensures transactions == map[] && tempDestinations == [] && recoveringPullConsumers == map[]
      ensures !disposed && connectionInterruptProcessingComplete
    {
      info := Some(connection);
      transactions := map[];
      sessions := map[];
      tempDestinations := [];
      disposed := false;
      connectionInterruptProcessingComplete := true;
      recoveringPullConsumers := map[];
      new;
      var sessionId := SessionId(connection.connectionId, -1);
      AddSession(sessionId);
    }

    /** A new SessionState for `id`, stored under that id. */
    method AddSession(id: SessionId)
      modifies this
      ensures id in sessions && fresh(sessions[id]) && sessions[id].sessionId == id && sessions[id].shutdowns == 0
      ensures sessions == old(sessions)[id := sessions[id]]
      ensures info == old(info) && transactions == old(transactions) && tempDestinations == old(tempDestinations)
      ensures disposed == old(disposed) && recoveringPullConsumers == old(recoveringPullConsumers)
      ensures connectionInterruptProcessingComplete == old(connectionInterruptProcessingComplete)
    {
      var state := new SessionState(id);
      sessions := sessions[id := state];
    }

    function ToString(): (s: string)
      reads this
      ensures info.None? ==> s == NULL_TEXT
      ensures info.Some? ==> s == info.value.text
    {
      if info.Some? then info.value.text else NULL_TEXT
    }

    /**
     * The state starts over for `newInfo`: no transactions, sessions or temporary
     * destinations, and not disposed. The other fields are kept.
     */
    method Reset(newInfo: Option<ConnectionInfo>)
      modifies this
      ensures info == newInfo
      ensures transactions == map[] && sessions == map[] && tempDestinations == []
      ensures !disposed
      ensures connectionInterruptProcessingComplete == old(connectionInterruptProcessingComplete)
      ensures recoveringPullConsumers == old(recoveringPullConsumers)
    {
      info := newInfo;
      transactions := map[];
      sessions := map[];
      tempDestinations := [];
      disposed := false;
    }

    /**
     * The first call disposes the state and shuts every session down once; any later call
     * changes nothing, as the compare-and-set on `disposed` fails.
     */
    method Shutdown()
      modifies this, sessions.Values
      ensures disposed
      ensures old(disposed) ==> unchanged(this) && unchanged(sessions.Values)
      ensures !old(disposed) ==> forall s :: s in old(sessions.Values) ==> s.shutdowns == old(s.shutdowns) + 1
      ensures sessions == old(sessions) && info == old(info) && transactions == old(transactions)
      ensures tempDestinations == old(tempDestinations) && recoveringPullConsumers == old(recoveringPullConsumers)
      ensures connectionInterruptProcessingComplete == old(connectionInterruptProcessingComplete)
    {
      if disposed {
        return;
      }
      disposed := true;
      var values := sessions.Values;
      var pending := values;
      while pending != {}
        invariant pending <= values
        invariant forall s :: s in values - pending ==> s.shutdowns == old(s.shutdowns) + 1
        invariant forall s :: s in pending ==> s.shutdowns == old(s.shutdowns)
        invariant sessions == old(sessions) && disposed
        invariant info == old(info) && transactions == old(transactions)
        invariant tempDestinations == old(tempDestinations) && recoveringPullConsumers == old(recoveringPullConsumers)
        invariant connectionInterruptProcessingComplete == old(connectionInterruptProcessingComplete)
        decreases pending
      {
        var s :| s in pending;
        s.Shutdown();
        pending := pending - {s};
      }
    }

    /** Fails with an illegal-state error exactly when the state is disposed. */
    method CheckShutdown() returns (r: Outcome<StateError>)
      ensures r == Fail(AlreadyDisposed) <==> disposed
      ensures r.Pass? <==> !disposed
    {
      if disposed {
        return Fail(AlreadyDisposed);
      }
      r := Pass;
    }
  }
}
