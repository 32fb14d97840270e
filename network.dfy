/** The backend's per-identity gateway cache: `getContract` connects a
    gateway for an identity the first time it is asked for and reuses it
    afterwards; `disconnectGateway` disconnects and evicts one identity, or
    every identity when given none. The Fabric connection itself is abstract:
    whether a connect succeeds is a parameter. */
module Network {
  import opened Primitives

  const DEFAULT_IDENTITY: string := "admin"

  datatype ConnectError = ConnectFailed(identity: string)

  /** A gateway object: which identity it is connected as, and how often it
      was asked to connect and to disconnect. */
  class Gateway {
    var connectedAs: Option<string>
    var connectCalls: nat
    var disconnectCalls: nat

    constructor()
      ensures connectedAs == None && connectCalls == 0 && disconnectCalls == 0
    {
      connectedAs := None;
      connectCalls := 0;
      disconnectCalls := 0;
    }

    method Connect(identity: string, succeeds: bool) returns (ok: bool)
      modifies this
      ensures ok == succeeds
      ensures connectCalls == old(connectCalls) + 1 && disconnectCalls == old(disconnectCalls)
      ensures connectedAs == if succeeds then Some(identity) else old(connectedAs)
    {
      connectCalls := connectCalls + 1;
      if succeeds {
        connectedAs := Some(identity);
      }
      ok := succeeds;
    }

    method Disconnect()
      modifies this
      ensures connectedAs == None
      ensures disconnectCalls == old(disconnectCalls) + 1 && connectCalls == old(connectCalls)
    {
      connectedAs := None;
      disconnectCalls := disconnectCalls + 1;
    }
  }

  /** The module-level `gateways` object. */
  class GatewayCache {
    var gateways: map<string, Gateway>

    /** Every cached entry is its own gateway object. */
    ghost predicate Valid()
      reads this
    {
      forall a, b | a in gateways && b in gateways && a != b :: gateways[a] != gateways[b]
    }

    constructor()
      ensures gateways == map[] && Valid()
    {
      gateways := map[];
    }

    /** The identity `getContract` uses: the argument, or 'admin' when it is omitted. */
    static function IdentityOf(identity: Option<string>): string {
      if identity.Some? then identity.value else DEFAULT_IDENTITY
    }

    /** getContract: a cached identity gets its gateway back untouched; an
        uncached one gets a new gateway, cached BEFORE it connects, so a failed
        connect leaves an unconnected gateway in the cache. */
    method GetContract(identity: Option<string>, connectSucceeds: bool) returns (r: Result<Gateway, ConnectError>)
      requires Valid()
      modifies this
      ensures Valid()
      ensures var id := IdentityOf(identity);
        id in old(gateways) ==>
          && gateways == old(gateways) && r == Ok(gateways[id])
          && gateways[id].connectCalls == old(gateways[id].connectCalls)
          && gateways[id].connectedAs == old(gateways[id].connectedAs)
      ensures var id := IdentityOf(identity);
        id !in old(gateways) ==>
          && id in gateways && fresh(gateways[id])
          && gateways == old(gateways)[id := gateways[id]]
          && gateways[id].connectCalls == 1 && gateways[id].disconnectCalls == 0
          && (connectSucceeds ==> r == Ok(gateways[id]) && gateways[id].connectedAs == Some(id))
          && (!connectSucceeds ==> r == Err(ConnectFailed(id)) && gateways[id].connectedAs == None)
    {
      var id := IdentityOf(identity);
      if id !in gateways {
        var g := new Gateway();
        gateways := gateways[id := g];
        var ok := g.Connect(id, connectSucceeds);
        if !ok {
          return Err(ConnectFailed(id));
        }
      }
      return Ok(gateways[id]);
    }

    /** disconnectGateway: a non-empty identity disconnects and evicts that
        entry alone (nothing for an uncached one); no identity, or the empty
        one, disconnects and evicts every entry. */
    method DisconnectGateway(identity: Option<string>)
      requires Valid()
      modifies this, gateways.Values
      ensures Valid()
      ensures identity.Some? && identity.value != "" ==>
        var id := identity.value;
        && gateways == old(gateways) - {id}
        && (id in old(gateways) ==>
              old(gateways)[id].connectedAs == None
              && old(gateways)[id].disconnectCalls == old(gateways[id].disconnectCalls) + 1
              && old(gateways)[id].connectCalls == old(gateways[id].connectCalls))
        && (forall k | k in gateways ::
              gateways[k].connectedAs == old(gateways[k].connectedAs)
              && gateways[k].disconnectCalls == old(gateways[k].disconnectCalls)
              && gateways[k].connectCalls == old(gateways[k].connectCalls))
      ensures identity.None? || identity.value == "" ==>
        && gateways == map[]
        && (forall k | k in old(gateways) ::
              old(gateways)[k].connectedAs == None
              && old(gateways)[k].disconnectCalls == old(gateways[k].disconnectCalls) + 1
              && old(gateways)[k].connectCalls == old(gateways[k].connectCalls))
    {
      if identity.Some? && identity.value != "" {
        DisconnectOne(identity.value);
      } else {
        DisconnectAll();
      }
    }

    /** The branch of disconnectGateway for one identity. */
    method DisconnectOne(id: string)
      requires Valid()
      modifies this, gateways.Values
      ensures Valid()
      ensures gateways == old(gateways) - {id}
      ensures id in old(gateways) ==>
        old(gateways)[id].connectedAs == None
        && old(gateways)[id].disconnectCalls == old(gateways[id].disconnectCalls) + 1
        && old(gateways)[id].connectCalls == old(gateways[id].connectCalls)
      ensures forall k | k in gateways ::
        gateways[k].connectedAs == old(gateways[k].connectedAs)
        && gateways[k].disconnectCalls == old(gateways[k].disconnectCalls)
        && gateways[k].connectCalls == old(gateways[k].connectCalls)
    {
      if id in gateways {
        gateways[id].Disconnect();
        gateways := gateways - {id};
      }
    }

    /** The branch of disconnectGateway for every identity: the `for...in`
        loop that disconnects and deletes each entry. */
    method DisconnectAll()
      requires Valid()
      modifies this, gateways.Values
      ensures Valid()
      ensures gateways == map[]
      ensures forall k | k in old(gateways) ::
        old(gateways)[k].connectedAs == None
        && old(gateways)[k].disconnectCalls == old(gateways[k].disconnectCalls) + 1
        && old(gateways)[k].connectCalls == old(gateways[k].connectCalls)
    {
      while gateways != map[]
        invariant Valid()
        invariant forall k | k in gateways :: k in old(gateways) && gateways[k] == old(gateways)[k]
        invariant forall k | k in gateways ::
          gateways[k].connectedAs == old(gateways[k].connectedAs)
          && gateways[k].disconnectCalls == old(gateways[k].disconnectCalls)
        invariant forall k | k in old(gateways) && k !in gateways ::
          old(gateways)[k].connectedAs == None
          && old(gateways)[k].disconnectCalls == old(gateways[k].disconnectCalls) + 1
        invariant forall k | k in old(gateways) ::
          old(gateways)[k].connectCalls == old(gateways[k].connectCalls)
        decreases |gateways|
      {
        var key :| key in gateways;
        DisconnectOne(key);
      }
    }
  }
}
