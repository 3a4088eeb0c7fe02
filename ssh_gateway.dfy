/**
 * The disconnect handler of src/ssh/sshgateway.ts, as a composition of two
 * registry operations. Sockets and event registration are not modelled.
 */
module SshGateway {
  import opened Wrappers
  import opened Ssh

  /**
   * On a client disconnect the gateway looks up the client's first connection
   * id and closes that connection. With no connection it passes `undefined`,
   * which no record's id equals, so the close fails without any effect.
   */
  method OnDisconnect(service: SshService, clientId: string, closes: bool) returns (r: Result<bool, SshError>)
    requires service.Valid()
    modifies service
    ensures service.Valid()
    ensures service.shells == old(service.shells)
    ensures service.idCounter == old(service.idCounter) && service.socketIdCounter == old(service.socketIdCounter)
    ensures IndexOfClient(old(service.connections), clientId).None? ==>
              r == Err(NoConnectionWithId)
              && service.connections == old(service.connections)
              && service.effects == old(service.effects)
    ensures IndexOfClient(old(service.connections), clientId).Some? ==>
              var k := IndexOfClient(old(service.connections), clientId).value;
              && service.effects == old(service.effects) + [Close(old(service.connections)[k].id)]
              && (closes ==>
                    r == Ok(true)
                    && service.connections == old(service.connections)[k := old(service.connections)[k].(isOpen := false)])
              && (!closes ==> r == Err(TransportFailed) && service.connections == old(service.connections))
  {
    var connectionId := service.GetConnectionId(clientId);
    if connectionId.None? {
      return Err(NoConnectionWithId);
    }
    ghost var k := IndexOfClient(service.connections, clientId).value;
    assert FirstOfClient(service.connections, k, clientId);
    IndexOfIdOfMember(service.connections, k);
    r := service.CloseConnection(connectionId.value, closes);
  }
}
