/**
 * The SSH connection and shell registry of src/ssh/ssh.service.ts.
 *
 * The service owns two growing lists, one of connection records and one of
 * shell records, and two independent id counters. The ssh2 handles are not
 * modelled: every call the service makes on them (connect, close, shell,
 * write) is appended to a ghost effect log, and whether an awaited call
 * resolves or rejects is a parameter of the operation that awaits it.
 */
module Ssh {
  import opened Wrappers
  import opened Sequences

  /** A connection record `{id, sshConnection, clientId, isOpen}` without its handle. */
  datatype Connection = Connection(id: nat, clientId: string, isOpen: bool)

  /** A shell record `{id, isOpen, socket, clientId}` without its socket. */
  datatype Shell = Shell(id: nat, isOpen: bool, clientId: string)

  /** The errors the service throws. */
  datatype SshError =
    | NoConnectionWithId   // 'No connection with that ID exists'
    | NoConnectionFound    // 'No Connection found'
    | ConnectionClosed     // 'Connection is closed'
    | NoShellSocketFound   // 'No Shell Socket found'
    | TransportFailed      // a rejection of an awaited ssh2 call, passed through

  /** A call made on an ssh2 handle, identified by the record it belongs to. */
  datatype Effect =
    | Connect(connectionId: nat)
    | Close(connectionId: nat)
    | OpenShell(connectionId: nat)
    | Write(shellId: nat, msg: string)

  function ConnectionIds(cs: seq<Connection>): (ids: seq<nat>)
    ensures |ids| == |cs|
    ensures forall i :: 0 <= i < |cs| ==> ids[i] == cs[i].id
  {
    seq(|cs|, i requires 0 <= i < |cs| => cs[i].id)
  }

  function ClientIds(cs: seq<Connection>): (clients: seq<string>)
    ensures |clients| == |cs|
    ensures forall i :: 0 <= i < |cs| ==> clients[i] == cs[i].clientId
  {
    seq(|cs|, i requires 0 <= i < |cs| => cs[i].clientId)
  }

  function ShellIds(ss: seq<Shell>): (ids: seq<nat>)
    ensures |ids| == |ss|
    ensures forall i :: 0 <= i < |ss| ==> ids[i] == ss[i].id
  {
    seq(|ss|, i requires 0 <= i < |ss| => ss[i].id)
  }

  function ShellClientIds(ss: seq<Shell>): (clients: seq<string>)
    ensures |clients| == |ss|
    ensures forall i :: 0 <= i < |ss| ==> clients[i] == ss[i].clientId
  {
    seq(|ss|, i requires 0 <= i < |ss| => ss[i].clientId)
  }

  /** A position found by FirstIndexOf, or none when the search ran off the end. */
  function Found(k: nat, length: nat): Option<nat>
  {
    if k < length then Some(k) else None
  }

  /** Ids strictly increase in list order. */
  predicate Increasing(ids: seq<nat>)
  {
    forall i, j :: 0 <= i < j < |ids| ==> ids[i] < ids[j]
  }

  /** Ids strictly increase and all lie below the next id to hand out. */
  predicate IncreasingBelow(ids: seq<nat>, next: nat)
  {
    Increasing(ids) && forall i :: 0 <= i < |ids| ==> ids[i] < next
  }

  /**
   * How the connection list may change between two states: nothing is removed,
   * ids and client ids stay, and a closed record never opens again.
   */
  predicate ConnectionsEvolve(before: seq<Connection>, after: seq<Connection>)
  {
    && |before| <= |after|
    && forall i :: 0 <= i < |before| ==>
         && after[i].id == before[i].id
         && after[i].clientId == before[i].clientId
         && (after[i].isOpen ==> before[i].isOpen)
  }

  /** The `find` by connection id: the first record with the id. */
  function IndexOfId(cs: seq<Connection>, id: nat): (r: Option<nat>)
    ensures r.Some? ==> r.value < |cs| && cs[r.value].id == id
    ensures r.Some? ==> forall j :: 0 <= j < r.value ==> cs[j].id != id
    ensures r.None? <==> forall j :: 0 <= j < |cs| ==> cs[j].id != id
  {
    Found(FirstIndexOf(ConnectionIds(cs), id), |cs|)
  }

  /** The `find` by client id over connections: the client's first connection. */
  function IndexOfClient(cs: seq<Connection>, clientId: string): (r: Option<nat>)
    ensures r.Some? ==> r.value < |cs| && cs[r.value].clientId == clientId
    ensures r.Some? ==> forall j :: 0 <= j < r.value ==> cs[j].clientId != clientId
    ensures r.None? <==> forall j :: 0 <= j < |cs| ==> cs[j].clientId != clientId
  {
    Found(FirstIndexOf(ClientIds(cs), clientId), |cs|)
  }

  /** The `find` by client id over shells: the client's first shell. */
  function ShellIndexOfClient(ss: seq<Shell>, clientId: string): (r: Option<nat>)
    ensures r.Some? ==> r.value < |ss| && ss[r.value].clientId == clientId
    ensures r.Some? ==> forall j :: 0 <= j < r.value ==> ss[j].clientId != clientId
    ensures r.None? <==> forall j :: 0 <= j < |ss| ==> ss[j].clientId != clientId
  {
    Found(FirstIndexOf(ShellClientIds(ss), clientId), |ss|)
  }

  /** `k` is the first connection of the client. */
  predicate FirstOfClient(cs: seq<Connection>, k: nat, clientId: string)
  {
    k < |cs| && cs[k].clientId == clientId && forall j :: 0 <= j < k ==> cs[j].clientId != clientId
  }

  /**
   * The guards of sendShellMessage, in their order: the shell a message goes
   * to, or the first guard that fails.
   */
  function SendTarget(cs: seq<Connection>, ss: seq<Shell>, clientId: string): (r: Result<nat, SshError>)
    ensures r == Err(NoConnectionFound) <==> forall k :: 0 <= k < |cs| ==> cs[k].clientId != clientId
    ensures r == Err(ConnectionClosed) <==> exists k: nat :: FirstOfClient(cs, k, clientId) && !cs[k].isOpen
    ensures r == Err(NoShellSocketFound) <==>
              (exists k: nat :: FirstOfClient(cs, k, clientId) && cs[k].isOpen)
              && forall j :: 0 <= j < |ss| ==> ss[j].clientId != clientId
    ensures r.Err? ==> r.error in {NoConnectionFound, ConnectionClosed, NoShellSocketFound}
    ensures r.Ok? ==> r.value < |ss| && ss[r.value].clientId == clientId
    ensures r.Ok? ==> forall j :: 0 <= j < r.value ==> ss[j].clientId != clientId
  {
    match IndexOfClient(cs, clientId)
    case None => Err(NoConnectionFound)
    case Some(k) =>
      assert FirstOfClient(cs, k, clientId);
      if !cs[k].isOpen then Err(ConnectionClosed)
      else ShellIndexOfClient(ss, clientId).ToResult(NoShellSocketFound)
  }

  /** In a list with increasing ids, looking a record's id up finds that record. */
  lemma IndexOfIdOfMember(cs: seq<Connection>, k: nat)
    requires k < |cs|
    requires Increasing(ConnectionIds(cs))
    ensures IndexOfId(cs, cs[k].id) == Some(k)
  {
  }

  class SshService {
    var connections: seq<Connection>
    var shells: seq<Shell>
    /** The next connection id; read directly by the HTTP controller. */
    var idCounter: nat
    /** The next shell id, independent of `idCounter`. */
    var socketIdCounter: nat
    /** Every call made on an ssh2 handle, oldest first. */
    ghost var effects: seq<Effect>

    ghost predicate Valid()
      reads this
    {
      && IncreasingBelow(ConnectionIds(connections), idCounter)
      && IncreasingBelow(ShellIds(shells), socketIdCounter)
    }

    constructor ()
      ensures Valid()
      ensures connections == [] && shells == []
      ensures idCounter == 0 && socketIdCounter == 0
      ensures effects == []
    {
      connections, shells := [], [];
      idCounter, socketIdCounter := 0, 0;
      effects := [];
    }

    /**
     * connectToServer: the record is appended with the current id before the
     * handshake is awaited, so it stays even when `connects` is false.
     */
    method ConnectToServer(clientId: string, connects: bool) returns (r: Result<Connection, SshError>)
      requires Valid()
      modifies this
      ensures Valid()
      ensures connections == old(connections) + [Connection(old(idCounter), clientId, true)]
      ensures idCounter == old(idCounter) + 1
      ensures shells == old(shells) && socketIdCounter == old(socketIdCounter)
      ensures ConnectionsEvolve(old(connections), connections)
      ensures effects == old(effects) + [Connect(old(idCounter))]
      ensures r == if connects then Ok(Connection(old(idCounter), clientId, true)) else Err(TransportFailed)
    {
      var connection := Connection(idCounter, clientId, true);
      idCounter := idCounter + 1;
      connections := connections + [connection];
      effects := effects + [Connect(connection.id)];
      if connects {
        r := Ok(connection);
      } else {
        r := Err(TransportFailed);
      }
    }

    /**
     * closeConnection: an unknown id fails before anything is closed; a known
     * one is closed on its handle and then flagged closed, whatever its flag was.
     */
    method CloseConnection(connectionId: nat, closes: bool) returns (r: Result<bool, SshError>)
      requires Valid()
      modifies this
      ensures Valid()
      ensures shells == old(shells)
      ensures idCounter == old(idCounter) && socketIdCounter == old(socketIdCounter)
      ensures ConnectionsEvolve(old(connections), connections)
      ensures IndexOfId(old(connections), connectionId).None? ==>
                r == Err(NoConnectionWithId) && connections == old(connections) && effects == old(effects)
      ensures IndexOfId(old(connections), connectionId).Some? ==>
                var k := IndexOfId(old(connections), connectionId).value;
                && effects == old(effects) + [Close(connectionId)]
                && (closes ==> r == Ok(true) && connections == old(connections)[k := old(connections)[k].(isOpen := false)])
                && (!closes ==> r == Err(TransportFailed) && connections == old(connections))
    {
      var found := FindConnectionWithId(connectionId);
      if found.Err? {
        return Err(found.error);
      }
      effects := effects + [Close(connectionId)];
      if !closes {
        return Err(TransportFailed);
      }
      // findIndex runs the same first-match scan by id as the finder.
      var at := FindConnectionWithId(connectionId);
      var index: int := if at.Ok? then at.value else -1;
      if index >= 0 {
        connections := connections[index := connections[index].(isOpen := false)];
        assert ConnectionIds(connections) == ConnectionIds(old(connections));
      }
      return Ok(true);
    }

    /** getConnectionId: the id of the client's first connection, open or closed. */
    method GetConnectionId(clientId: string) returns (r: Option<nat>)
      ensures r.None? <==> forall j :: 0 <= j < |connections| ==> connections[j].clientId != clientId
      ensures r.Some? ==> exists k: nat :: FirstOfClient(connections, k, clientId) && connections[k].id == r.value
    {
      var found := FindConnectionWithClientId(clientId);
      if found.Ok? {
        assert FirstOfClient(connections, found.value, clientId);
        r := Some(connections[found.value].id);
      } else {
        r := None;
      }
    }

    /**
     * openShellSession: the connection must exist but need not be open; the
     * shell counter moves only once the shell has been opened.
     */
    method OpenShellSession(connectionId: nat, clientId: string, opens: bool) returns (r: Result<Shell, SshError>)
      requires Valid()
      modifies this
      ensures Valid()
      ensures connections == old(connections) && idCounter == old(idCounter)
      ensures IndexOfId(connections, connectionId).None? ==>
                r == Err(NoConnectionWithId) && shells == old(shells)
                && socketIdCounter == old(socketIdCounter) && effects == old(effects)
      ensures IndexOfId(connections, connectionId).Some? ==>
                && effects == old(effects) + [OpenShell(connectionId)]
                && (opens ==>
                      && r == Ok(Shell(old(socketIdCounter), true, clientId))
                      && shells == old(shells) + [Shell(old(socketIdCounter), true, clientId)]
                      && socketIdCounter == old(socketIdCounter) + 1)
                && (!opens ==>
                      r == Err(TransportFailed) && shells == old(shells) && socketIdCounter == old(socketIdCounter))
    {
      var found := FindConnectionWithId(connectionId);
      if found.Err? {
        return Err(found.error);
      }
      effects := effects + [OpenShell(connectionId)];
      if !opens {
        return Err(TransportFailed);
      }
      var shell := Shell(socketIdCounter, true, clientId);
      socketIdCounter := socketIdCounter + 1;
      shells := shells + [shell];
      return Ok(shell);
    }

    /** _findConnectionWithId: the index of the first record with the id. */
    method FindConnectionWithId(connectionId: nat) returns (r: Result<nat, SshError>)
      ensures r == IndexOfId(connections, connectionId).ToResult(NoConnectionWithId)
    {
      var i := 0;
      while i < |connections|
        invariant 0 <= i <= |connections|
        invariant forall j :: 0 <= j < i ==> connections[j].id != connectionId
      {
        if connections[i].id == connectionId {
          return Ok(i);
        }
        i := i + 1;
      }
      return Err(NoConnectionWithId);
    }

    /** _findConnectionWithClientId: the index of the client's first connection. */
    method FindConnectionWithClientId(clientId: string) returns (r: Result<nat, SshError>)
      ensures r == IndexOfClient(connections, clientId).ToResult(NoConnectionFound)
    {
      var i := 0;
      while i < |connections|
        invariant 0 <= i <= |connections|
        invariant forall j :: 0 <= j < i ==> connections[j].clientId != clientId
      {
        if connections[i].clientId == clientId {
          return Ok(i);
        }
        i := i + 1;
      }
      return Err(NoConnectionFound);
    }

    /** _findShellSocket: the index of the client's first shell. */
    method FindShellSocket(clientId: string) returns (r: Result<nat, SshError>)
      ensures r == ShellIndexOfClient(shells, clientId).ToResult(NoShellSocketFound)
    {
      var i := 0;
      while i < |shells|
        invariant 0 <= i <= |shells|
        invariant forall j :: 0 <= j < i ==> shells[j].clientId != clientId
      {
        if shells[i].clientId == clientId {
          return Ok(i);
        }
        i := i + 1;
      }
      return Err(NoShellSocketFound);
    }

    /**
     * sendShellMessage: the message is written verbatim, once, to the client's
     * first shell, and only when every guard passes.
     */
    method SendShellMessage(clientId: string, msg: string) returns (r: Result<(), SshError>)
      modifies this`effects
      ensures SendTarget(connections, shells, clientId).Ok? ==>
                r.Ok? && effects == old(effects) + [Write(shells[SendTarget(connections, shells, clientId).value].id, msg)]
      ensures SendTarget(connections, shells, clientId).Err? ==>
                r == Err(SendTarget(connections, shells, clientId).error) && effects == old(effects)
    {
      var connection := FindConnectionWithClientId(clientId);
      if connection.Err? {
        return Err(connection.error);
      }
      if !connections[connection.value].isOpen {
        return Err(ConnectionClosed);
      }
      var shell := FindShellSocket(clientId);
      if shell.Err? {
        return Err(shell.error);
      }
      effects := effects + [Write(shells[shell.value].id, msg)];
      return Ok(());
    }
  }

  /**
   * An example client of the registry, not a model of any source operation:
   * a connection closed twice succeeds both times,
   * and a message for its client is then refused without a write.
   */
  method CloseTwiceThenSend(clientId: string, msg: string)
  {
    var service := new SshService();
    var c := service.ConnectToServer(clientId, true);
    assert c == Ok(Connection(0, clientId, true));
    var s := service.OpenShellSession(0, clientId, true);
    assert s == Ok(Shell(0, true, clientId));
    var first := service.CloseConnection(0, true);
    assert first == Ok(true);
    var second := service.CloseConnection(0, true);
    assert second == Ok(true);
    assert service.connections == [Connection(0, clientId, false)];
    ghost var before := service.effects;
    var sent := service.SendShellMessage(clientId, msg);
    assert FirstOfClient(service.connections, 0, clientId);
    assert sent == Err(ConnectionClosed) && service.effects == before;
  }
}
