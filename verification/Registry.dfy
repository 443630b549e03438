/**
 * The socket registry as a value (server/streaming/socket_registry.go): the state that
 * Sockets.SocketRegistry keeps in place and that the protocol steps on.
 */
module Registries {
  import opened Wrappers

  datatype Registry<S> = Registry(sockets: map<string, S>, counter: int) {
    function Add(uuid: string, socket: S): Registry<S> {
      Registry(sockets[uuid := socket], counter + 1)
    }

    /** Deleting an absent key changes nothing; the counter is clamped at zero. */
    function Remove(uuid: string): Registry<S> {
      Registry(sockets - {uuid}, if counter > 0 then counter - 1 else counter)
    }

    function Get(uuid: string): Option<S> {
      if uuid in sockets then Some(sockets[uuid]) else None
    }
  }

  function NoSockets<S>(): Registry<S> {
    Registry(map[], 0)
  }

  /**
   * A connection leaves the registry as it found it exactly if nobody was registered under
   * its UUID; otherwise the earlier entry is gone while its socket still counts.
   */
  lemma AddRemove<S>(r: Registry<S>, uuid: string, socket: S)
    ensures r.Add(uuid, socket).Remove(uuid) == r <==> uuid !in r.sockets && r.counter >= 0
    ensures r.counter >= 0 ==> r.Add(uuid, socket).Remove(uuid) == Registry(r.sockets - {uuid}, r.counter)
  {
    assert r.Add(uuid, socket).sockets - {uuid} == r.sockets - {uuid};
    assert uuid !in r.sockets ==> r.sockets - {uuid} == r.sockets;
    assert uuid in r.sockets ==> uuid !in r.sockets - {uuid};
  }
}
