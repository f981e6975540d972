/**
 * The process-wide registry of TCP handlers of the generic LED controller
 * integration: at most one handler per (host, port) endpoint, shared by
 * every configured device on that endpoint, and the connect-or-fail step
 * that makes a registered handler usable.
 */
module Helpers {
  import opened Wrappers
  import opened Text
  import opened Device
  import opened Host

  /** Key of the integration's own dictionary in `hass.data`. */
  const Domain := "ha-ledcontroller"
  /** Key of the handler list inside that dictionary. */
  const ConnHandlers := "handler"

  /** An endpoint. Equality is structural, as for the source's dataclass. */
  datatype Connection = Connection(host: string, port: nat)

  /** The shared state of the host: one dictionary per integration. Only the
      handler lists are modelled as values of the inner dictionaries. */
  class Hass {
    var data: map<string, map<string, seq<TcpHandler>>>

    constructor ()
      ensures data == map[]
    {
      data := map[];
    }
  }

  /** The endpoint a handler is connected to. */
  function FromHandler(handler: TcpHandler): (c: Connection)
    ensures c.host == handler.host && c.port == handler.port
  {
    Connection(handler.host, handler.port)
  }

  /** The registered handler list; absent dictionaries read as the empty list. */
  function Handlers(data: map<string, map<string, seq<TcpHandler>>>): seq<TcpHandler> {
    if Domain in data && ConnHandlers in data[Domain] then data[Domain][ConnHandlers] else []
  }

  /** No two registered handlers share an endpoint. */
  ghost predicate Unique(handlers: seq<TcpHandler>) {
    forall i, j :: 0 <= i < j < |handlers| ==> FromHandler(handlers[i]) != FromHandler(handlers[j])
  }

  /** Position of the first handler for `c`, if any. */
  function FindFirst(handlers: seq<TcpHandler>, c: Connection): (r: Option<nat>)
    ensures r.Some? ==> r.value < |handlers| && FromHandler(handlers[r.value]) == c
    ensures r.Some? ==> forall j :: 0 <= j < r.value ==> FromHandler(handlers[j]) != c
    ensures r.None? ==> forall j :: 0 <= j < |handlers| ==> FromHandler(handlers[j]) != c
  {
    if handlers == [] then None
    else if FromHandler(handlers[0]) == c then Some(0)
    else
      match FindFirst(handlers[1..], c)
      case None => None
      case Some(k) => Some(k + 1)
  }

  /** In a list without duplicates the first match is the only match. */
  lemma UniqueMatch(handlers: seq<TcpHandler>, c: Connection, i: nat)
    requires Unique(handlers)
    requires i < |handlers| && FromHandler(handlers[i]) == c
    ensures FindFirst(handlers, c) == Some(i)
  {
  }

  /** Appending a handler for an endpoint not yet present keeps the list free of duplicates. */
  lemma AppendKeepsUnique(handlers: seq<TcpHandler>, h: TcpHandler)
    requires Unique(handlers)
    requires FindFirst(handlers, FromHandler(h)).None?
    ensures Unique(handlers + [h])
  {
  }

  /** A handler appended for an endpoint absent so far is found at the end of the list. */
  lemma {:induction false} FindFirstAppend(handlers: seq<TcpHandler>, h: TcpHandler, c: Connection)
    requires FindFirst(handlers, c).None? && FromHandler(h) == c
    ensures FindFirst(handlers + [h], c) == Some(|handlers|)
  {
    if handlers != [] {
      assert (handlers + [h])[1..] == handlers[1..] + [h];
      FindFirstAppend(handlers[1..], h, c);
    }
  }

  /** The message of the exception raised when no handler is registered at all. */
  function NoConnectionMessage(c: Connection): string {
    "Couldnt find any connection for " + HostPort(c.host, c.port)
  }

  /** The message of the not-ready exception raised when connect returns unconnected. */
  function NotConnectedMessage(c: Connection): string {
    "Couldnt connect to LED Controller @ tcp://" + HostPort(c.host, c.port)
  }

  /**
   * Creates the integration's dictionary and the empty handler list when
   * absent, then appends a new, unconnected handler for `connection` unless
   * one is already registered.
   */
  method SetOrCreateHandler(hass: Hass, connection: Connection)
    modifies hass
    ensures Domain in hass.data && ConnHandlers in hass.data[Domain]
    ensures hass.data.Keys == old(hass.data.Keys) + {Domain}
    ensures forall k :: k in old(hass.data) && k != Domain ==> hass.data[k] == old(hass.data[k])
    ensures Domain in old(hass.data) ==>
              hass.data[Domain].Keys == old(hass.data[Domain].Keys) + {ConnHandlers}
    ensures Domain in old(hass.data) ==>
              forall k :: k in old(hass.data[Domain]) && k != ConnHandlers ==>
                hass.data[Domain][k] == old(hass.data[Domain][k])
    ensures old(FindFirst(Handlers(hass.data), connection)).Some? ==> hass.data == old(hass.data)
    ensures old(FindFirst(Handlers(hass.data), connection)).None? ==>
              var before, after := old(Handlers(hass.data)), Handlers(hass.data);
              && |after| == |before| + 1
              && after[..|before|] == before
              && fresh(after[|before|])
              && FromHandler(after[|before|]) == connection
              && !after[|before|].connected
    ensures FindFirst(Handlers(hass.data), connection).Some?
    ensures old(Unique(Handlers(hass.data))) ==> Unique(Handlers(hass.data))
  {
    if Domain !in hass.data {
      hass.data := hass.data[Domain := map[]];
    }
    if ConnHandlers !in hass.data[Domain] {
      hass.data := hass.data[Domain := hass.data[Domain][ConnHandlers := []]];
    }

    var handlers := hass.data[Domain][ConnHandlers];
    var i := 0;
    while i < |handlers|
      invariant 0 <= i <= |handlers|
      invariant forall j :: 0 <= j < i ==> FromHandler(handlers[j]) != connection
    {
      if FromHandler(handlers[i]) == connection {
        return;
      }
      i := i + 1;
    }

    var h := new TcpHandler(connection.host, connection.port);
    if Unique(handlers) {
      AppendKeepsUnique(handlers, h);
    }
    hass.data := hass.data[Domain := hass.data[Domain][ConnHandlers := handlers + [h]]];
    assert Handlers(hass.data) == handlers + [h];
    FindFirstAppend(handlers, h, connection);
  }

  /**
   * The handler registered for `connection`: a KeyError when the
   * dictionaries were never created, the lookup exception when the list is
   * empty, otherwise the first match, or None when nothing matches.
   */
  method GetHandler(hass: Hass, connection: Connection) returns (r: Result<Option<TcpHandler>, Error>)
    ensures Domain !in hass.data ==> r == Failure(KeyError(Domain))
    ensures Domain in hass.data && ConnHandlers !in hass.data[Domain] ==> r == Failure(KeyError(ConnHandlers))
    ensures Domain in hass.data && ConnHandlers in hass.data[Domain] ==>
              var handlers := hass.data[Domain][ConnHandlers];
              && (handlers == [] <==> r == Failure(HandlerLookup(NoConnectionMessage(connection))))
              && (handlers != [] ==> r.Success?)
    ensures r.Success? && r.value.Some? ==>
              var handlers := Handlers(hass.data);
              && FindFirst(handlers, connection).Some?
              && r.value.value == handlers[FindFirst(handlers, connection).value]
    ensures r.Success? && r.value.None? ==> FindFirst(Handlers(hass.data), connection).None?
    ensures r.Success? ==> Handlers(hass.data) != []
  {
    if Domain !in hass.data {
      return Failure(KeyError(Domain));
    }
    if ConnHandlers !in hass.data[Domain] {
      return Failure(KeyError(ConnHandlers));
    }
    var handlers := hass.data[Domain][ConnHandlers];
    if |handlers| == 0 {
      return Failure(HandlerLookup(NoConnectionMessage(connection)));
    }

    var i := 0;
    while i < |handlers|
      invariant 0 <= i <= |handlers|
      invariant forall j :: 0 <= j < i ==> FromHandler(handlers[j]) != connection
    {
      if FromHandler(handlers[i]) == connection {
        return Success(Some(handlers[i]));
      }
      i := i + 1;
    }
    return Success(None);
  }

  /**
   * Registers (or reuses) the handler for `connection`, connects it once and
   * reports the two failure exits as ConfigEntryNotReady: the connect call
   * raised, or it returned with the handler still unconnected.
   */
  method AsyncSetupConnectionHandler(hass: Hass, connection: Connection, outcome: ConnectOutcome)
    returns (r: Outcome<Error>)
    modifies hass, Handlers(hass.data)
    ensures var before, after := old(Handlers(hass.data)), Handlers(hass.data);
            && |before| <= |after| <= |before| + 1
            && after[..|before|] == before
            && FindFirst(after, connection).Some?
            && (old(Unique(Handlers(hass.data))) ==> Unique(after))
    ensures forall h <- old(Handlers(hass.data)) :: FromHandler(h) != connection ==> h.connected == old(h.connected)
    ensures match outcome
            case ConnectRaises(e) => r == Fail(ConfigEntryNotReady("", Some(e)))
            case ReturnsDisconnected => r == Fail(ConfigEntryNotReady(NotConnectedMessage(connection), None))
            case ReturnsConnected => r == Pass
    ensures r == Pass ==>
              var after := Handlers(hass.data);
              after[FindFirst(after, connection).value].connected
  {
    SetOrCreateHandler(hass, connection);
    var found := GetHandler(hass, connection);
    assert found.Success? && found.value.Some?;
    var handler := found.value.value;

    var raised := handler.Connect(outcome);
    if raised.Some? {
      return Fail(ConfigEntryNotReady("", raised));
    }
    if !handler.connected {
      return Fail(ConfigEntryNotReady(NotConnectedMessage(connection), None));
    }
    return Pass;
  }
}
