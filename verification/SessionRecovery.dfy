/**
 Reconnecting a WhatsApp client: the session manager's maps, the soft retry loop, and the full rebuild
 from stored authentication.  What the client library and the database answer is an oracle, and no
 other event touches the session between the steps.
 */
module SessionRecovery {

  datatype ClientState = ClientState(client: nat, userId: string, isReady: bool, isSending: bool,
      reconnectAttempts: nat)

  /** One soft attempt: initialize and getState, each of which may throw or time out. */
  datatype Soft = InitThrows | StateThrows | State(connected: bool)

  datatype Auth = AuthReady | AuthQr | AuthFailure | AuthTimeout

  /** What the account collection answers. */
  datatype Lookup = LookupThrows | NoAccount | NoUser | Owner(userId: string)

  /** What happens while the new client starts. */
  datatype Startup = HandlersThrow | StartThrows | Waited(auth: Auth)

  datatype Oracle = Oracle(soft: nat -> Soft, lookup: Lookup, startup: Startup, saveWorks: bool, markWorks: bool)

  /** How a reconnection ends; a database error of the lookup is not caught. */
  datatype Outcome = Done(reconnected: bool) | Rejected

  datatype Persisted = PReady | PDisconnected | POther

  const MAX_SOFT_INIT_ATTEMPTS: nat := 3

  /** The first soft attempt among first..MAX_SOFT_INIT_ATTEMPTS that finds the client connected, or 0. */
  function FirstConnected(soft: nat -> Soft, first: nat): (k: nat)
    requires first >= 1
    ensures k != 0 ==> first <= k <= MAX_SOFT_INIT_ATTEMPTS && soft(k) == State(true)
    ensures forall i :: first <= i <= MAX_SOFT_INIT_ATTEMPTS && (k == 0 || i < k) ==> soft(i) != State(true)
    decreases MAX_SOFT_INIT_ATTEMPTS + 1 - first
  {
    if first > MAX_SOFT_INIT_ATTEMPTS then 0
    else if soft(first) == State(true) then first
    else FirstConnected(soft, first + 1)
  }

  class SessionManager {
    var clientStates: map<string, ClientState>
    var socketClientMap: map<string, string>
    var restoredSessions: set<string>
    var accountStatus: map<string, Persisted>
    var nextClient: nat

    constructor (accountStatus: map<string, Persisted>)
      ensures Valid() && clientStates == map[] && socketClientMap == map[] && this.accountStatus == accountStatus
    {
      clientStates, socketClientMap, restoredSessions := map[], map[], {};
      this.accountStatus, nextClient := accountStatus, 0;
    }

    /** Restored sessions are live, and client instances are not reused. */
    ghost predicate Valid()
      reads this
    {
      && restoredSessions <= clientStates.Keys
      && (forall id :: id in clientStates ==> clientStates[id].client < nextClient)
    }

    method CreateSession(clientId: string, userId: string, isRestore: bool) returns (client: nat)
      requires Valid()
      modifies this`clientStates, this`restoredSessions, this`nextClient
      ensures Valid()
      ensures clientId in old(clientStates) ==>
        client == old(clientStates)[clientId].client && clientStates == old(clientStates)
        && restoredSessions == old(restoredSessions) && nextClient == old(nextClient)
      ensures clientId !in old(clientStates) ==>
        && client == old(nextClient) && nextClient == client + 1
        && clientStates == old(clientStates)[clientId := ClientState(client, userId, false, false, 0)]
        && restoredSessions == old(restoredSessions) + (if isRestore then {clientId} else {})
    {
      if clientId in clientStates {
        return clientStates[clientId].client;
      }
      client := nextClient;
      nextClient := nextClient + 1;
      clientStates := clientStates[clientId := ClientState(client, userId, false, false, 0)];
      if isRestore {
        restoredSessions := restoredSessions + {clientId};
      }
    }

    method SetReady(clientId: string, isReady: bool, resetAttempts: bool)
      requires Valid()
      modifies this`clientStates
      ensures Valid()
      ensures clientStates == if clientId !in old(clientStates) then old(clientStates) else
        old(clientStates)[clientId := old(clientStates)[clientId].(isReady := isReady,
          reconnectAttempts := if resetAttempts then 0 else old(clientStates)[clientId].reconnectAttempts)]
    {
      if clientId in clientStates {
        var state := clientStates[clientId].(isReady := isReady);
        if resetAttempts {
          state := state.(reconnectAttempts := 0);
        }
        clientStates := clientStates[clientId := state];
      }
    }

    method RemoveSession(clientId: string, preserveSocketMappings: bool)
      requires Valid()
      modifies this`clientStates, this`restoredSessions, this`socketClientMap
      ensures Valid()
      ensures clientStates == old(clientStates) - {clientId}
      ensures restoredSessions == old(restoredSessions) - {clientId}
      ensures preserveSocketMappings ==> socketClientMap == old(socketClientMap)
      ensures !preserveSocketMappings ==>
        socketClientMap == map s | s in old(socketClientMap)
          && old(socketClientMap)[s] != clientId :: old(socketClientMap)[s]
    {
      clientStates := clientStates - {clientId};
      restoredSessions := restoredSessions - {clientId};
      if !preserveSocketMappings {
        var todo := socketClientMap.Keys;
        while todo != {}
          invariant todo <= socketClientMap.Keys <= old(socketClientMap).Keys
          invariant forall s :: s in socketClientMap ==> socketClientMap[s] == old(socketClientMap)[s]
          invariant forall s :: s in old(socketClientMap) && s !in todo ==>
            (s in socketClientMap <==> old(socketClientMap)[s] != clientId)
          modifies this`socketClientMap
          decreases |todo|
        {
          var socketId :| socketId in todo;
          if socketClientMap[socketId] == clientId {
            socketClientMap := socketClientMap - {socketId};
          }
          todo := todo - {socketId};
        }
      }
    }

    method WriteAccount(clientId: string, status: Persisted, works: bool)
      modifies this`accountStatus
      ensures accountStatus ==
        if works && clientId in old(accountStatus) then old(accountStatus)[clientId := status] else old(accountStatus)
    {
      if works && clientId in accountStatus {
        accountStatus := accountStatus[clientId := status];
      }
    }

    // -------------------------------------------------------------------------------------------

    /** Every client but one, every socket mapping, and every account but one are as they were. */
    twostate predicate OthersKept(clientId: string)
      reads this
    {
      && clientStates - {clientId} == old(clientStates) - {clientId}
      && socketClientMap == old(socketClientMap)
      && restoredSessions - {clientId} == old(restoredSessions) - {clientId}
      && accountStatus - {clientId} == old(accountStatus) - {clientId}
    }

    /** `runRecreate`: drop the client, build a new one from disk, wait for authentication. */
    method RunRecreate(clientId: string, o: Oracle) returns (r: Outcome)
      requires Valid()
      modifies this
      ensures Valid() && OthersKept(clientId)
      ensures r == match o.lookup
                   case LookupThrows => Rejected
                   case NoAccount => Done(false)
                   case NoUser => Done(false)
                   case Owner(_) => Done(o.startup == Waited(AuthReady))
      ensures !o.lookup.Owner? ==>
        clientStates == old(clientStates) && restoredSessions == old(restoredSessions)
          && accountStatus == old(accountStatus)
      ensures o.lookup.Owner? && o.startup != Waited(AuthReady) ==>
        clientId !in clientStates && accountStatus == old(accountStatus)
      ensures r == Done(true) ==>
        && clientId in clientStates
        && clientStates[clientId] == ClientState(old(nextClient), o.lookup.userId, true, false, 0)
        && clientId in restoredSessions
        && (o.saveWorks && clientId in accountStatus ==> accountStatus[clientId] == PReady)
    {
      if o.lookup.LookupThrows? {
        return Rejected;
      }
      if o.lookup.NoAccount? || o.lookup.NoUser? {
        return Done(false);
      }
      RemoveSession(clientId, true);
      var client := CreateSession(clientId, o.lookup.userId, true);
      if o.startup.HandlersThrow? || o.startup.StartThrows? {
        RemoveSession(clientId, true);
        return Done(false);
      }
      if o.startup.auth != AuthReady {
        RemoveSession(clientId, true);
        return Done(false);
      }
      SetReady(clientId, true, true);
      WriteAccount(clientId, PReady, o.saveWorks);
      return Done(true);
    }

    /** The loop of soft attempts, which ends at the first that connects. */
    method TrySoft(o: Oracle) returns (connected: bool, attempts: nat)
      ensures attempts == if connected then FirstConnected(o.soft, 1) else MAX_SOFT_INIT_ATTEMPTS
      ensures connected <==> FirstConnected(o.soft, 1) != 0
      ensures attempts <= MAX_SOFT_INIT_ATTEMPTS
    {
      attempts := 0;
      var attempt := 1;
      while attempt <= MAX_SOFT_INIT_ATTEMPTS
        invariant 1 <= attempt <= MAX_SOFT_INIT_ATTEMPTS + 1 && attempts == attempt - 1
        invariant FirstConnected(o.soft, attempt) == FirstConnected(o.soft, 1)
      {
        attempts := attempts + 1;
        if o.soft(attempt) == State(true) {
          return true, attempts;
        }
        attempt := attempt + 1;
      }
      connected := false;
    }

    /** `runReconnection`: up to three soft attempts, then at most one rebuild. */
    method RunReconnection(clientId: string, o: Oracle) returns (r: Outcome, softAttempts: nat, rebuilds: nat)
      requires Valid()
      modifies this
      ensures Valid() && OthersKept(clientId)
      ensures softAttempts <= 3 && rebuilds <= 1
      ensures var k := FirstConnected(o.soft, 1);
        if clientId !in old(clientStates) then softAttempts == 0 && rebuilds == 1
        else if k != 0 then softAttempts == k && rebuilds == 0 && r == Done(true)
        else softAttempts == MAX_SOFT_INIT_ATTEMPTS && rebuilds == 1
      ensures rebuilds == 1 ==>
        r == match o.lookup
             case LookupThrows => Rejected
             case NoAccount => Done(false)
             case NoUser => Done(false)
             case Owner(_) => Done(o.startup == Waited(AuthReady))
      ensures r == Done(true) <==> clientId in clientStates && clientStates[clientId].isReady
      ensures r == Done(true) && rebuilds == 0 ==>
        clientStates[clientId] == old(clientStates)[clientId].(isReady := true, reconnectAttempts := 0)
      ensures rebuilds == 1 && o.lookup.Owner? && r == Done(true) ==>
        clientStates[clientId] == ClientState(old(nextClient), o.lookup.userId, true, false, 0)
      ensures !o.lookup.Owner? && rebuilds == 1 && clientId in old(clientStates) ==>
        clientId in clientStates && clientStates[clientId] == old(clientStates)[clientId].(isReady := false)
      ensures o.lookup.Owner? && rebuilds == 1 && r != Done(true) ==> clientId !in clientStates
      ensures r == Done(true) && rebuilds == 1 ==> clientStates[clientId].client == old(nextClient)
      ensures r == Done(true) && o.saveWorks && clientId in accountStatus ==> accountStatus[clientId] == PReady
      ensures r == Done(false) && o.markWorks && clientId in accountStatus ==> accountStatus[clientId] == PDisconnected
      ensures r == Rejected ==> accountStatus == old(accountStatus)
    {
      softAttempts, rebuilds := 0, 0;
      if clientId in clientStates {
        SetReady(clientId, false, false);
        var connected;
        connected, softAttempts := TrySoft(o);
        if connected {
          SetReady(clientId, true, true);
          WriteAccount(clientId, PReady, o.saveWorks);
          return Done(true), softAttempts, rebuilds;
        }
      }
      rebuilds := 1;
      r := RunRecreate(clientId, o);
      if r == Done(false) {
        WriteAccount(clientId, PDisconnected, o.markWorks);
      }
    }
  }
}
