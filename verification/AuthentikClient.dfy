/** The imperative API client: retry loop, memo and remote writes, step by step. */
module Clients {
  import opened Options
  import opened AuthentikServer
  import opened AuthentikApi
  import opened Reconciler

  /** What a call that may raise gives back. */
  datatype Outcome<+T> = Success(value: T) | Failure(error: ApiError) {
    predicate IsFailure() { Failure? }

    function PropagateFailure<U>(): Outcome<U>
      requires Failure?
    {
      Failure(error)
    }

    function Extract(): T
      requires Success?
    {
      value
    }

    /** The same outcome, in the network state it leaves. */
    function OnNet(n: Net): Answer<T> {
      match this
      case Success(v) => Ok(n, v)
      case Failure(e) => Err(n, e)
    }

    /** The same outcome, in the state of the world it leaves. */
    function In(w: World): Step<T> {
      match this
      case Success(v) => Done(w, v)
      case Failure(e) => Raised(w, e)
    }
  }

  class AuthentikClient {
    const faults: Oracle
    var server: Server
    var sent: seq<Request>
    var scopeMappings: Option<map<string, string>>

    constructor (faults: Oracle, server: Server, sent: seq<Request>)
      ensures this.faults == faults && State() == Net(server, sent) && scopeMappings == None
    {
      this.faults := faults;
      this.server := server;
      this.sent := sent;
      scopeMappings := None;
    }

    ghost function State(): Net
      reads this
    {
      Net(server, sent)
    }

    /** One attempt: the fault oracle decides whether it takes effect and what is heard of it. */
    method DoRequest(q: Request) returns (reply: Reply)
      modifies this`server, this`sent
      ensures (State(), reply) == Attempt(faults, old(State()), q)
    {
      var (served, honest) := Serve(server, q);
      match faults(|sent|) {
        case Clear =>
          server := served;
          reply := honest;
        case Fails(applied, error) =>
          if applied {
            server := served;
          }
          reply := Failed(error);
      }
      sent := sent + [q];
    }

    /** Bounded retries of transient failures only; a request that is not to be retried is sent once. */
    method SendRequest(q: Request, retry: bool) returns (reply: Reply)
      modifies this`server, this`sent
      ensures (State(), reply) == Send(faults, old(State()), q, if retry then MAX_ATTEMPTS else 1)
    {
      var attempts: nat := if retry then MAX_ATTEMPTS else 1;
      reply := DoRequest(q);
      while reply == Failed(Transient) && attempts > 1
        invariant attempts >= 1
        invariant Send(faults, old(State()), q, if retry then MAX_ATTEMPTS else 1) ==
          if reply == Failed(Transient) && attempts > 1 then Send(faults, State(), q, attempts - 1)
              else (State(), reply)
        decreases attempts
      {
        attempts := attempts - 1;
        reply := DoRequest(q);
      }
    }

    method GetApplication(slug: string) returns (r: Outcome<Option<Application>>)
      modifies this`server, this`sent
      ensures r.OnNet(State()) == ReadApplication(faults, old(State()), slug)
    {
      var reply := SendRequest(Request.GetApplication(slug), true);
      match reply {
        case ApplicationBody(a) => return Success(Some(a));
        case Failed(e) => return if e == NotFound then Success(None) else Failure(e);
        case _ => return Failure(Unexpected);
      }
    }

    method GetOauthProvider(pk: Pk) returns (r: Outcome<Option<Provider>>)
      modifies this`server, this`sent
      ensures r.OnNet(State()) == ReadProvider(faults, old(State()), pk)
    {
      var reply := SendRequest(GetProvider(pk), true);
      match reply {
        case ProviderBody(p) => return Success(Some(p));
        case Failed(e) => return if e == NotFound then Success(None) else Failure(e);
        case _ => return Failure(Unexpected);
      }
    }

    /** The rows with exactly the name, collected one after the other. */
    method FilterRows(rows: seq<(Pk, string)>, name: string) returns (found: seq<Pk>)
      ensures found == Matches(rows, name)
    {
      found := [];
      for i := 0 to |rows|
        invariant found == Matches(rows[..i], name)
      {
        assert rows[..i + 1][..i] == rows[..i];
        if rows[i].1 == name {
          found := found + [rows[i].0];
        }
      }
      assert rows[..|rows|] == rows;
    }

    method FindOauthProvider(name: string) returns (r: Outcome<Option<Pk>>)
      modifies this`server, this`sent
      ensures r.OnNet(State()) == FindProvider(faults, old(State()), name)
    {
      var reply := SendRequest(ListProviders(name), true);
      match reply {
        case ProviderRows(rows) =>
          var found := FilterRows(rows, name);
          if |found| > 1 {
            return Failure(Conflict);
          }
          return Success(if found == [] then None else Some(found[0]));
        case Failed(e) => return Failure(e);
        case _ => return Failure(Unexpected);
      }
    }

    method CreateOauthProvider(v: Provider) returns (r: Outcome<Pk>)
      modifies this`server, this`sent
      ensures r.OnNet(State()) == CreateProvider(faults, old(State()), v)
    {
      var reply := SendRequest(PostProvider(v), false);
      match reply {
        case Created(pk) => return Success(pk);
        case Failed(e) =>
          if e == Transient || e == Conflict {
            var found :- FindOauthProvider(v.name);
            if found.Some? {
              return Success(found.value);
            }
          }
          return Failure(e);
        case _ => return Failure(Unexpected);
      }
    }

    method UpdateOauthProvider(pk: Pk, v: Provider) returns (r: Outcome<()>)
      modifies this`server, this`sent
      ensures r.OnNet(State()) == UpdateProvider(faults, old(State()), pk, v)
    {
      var reply := SendRequest(PutProvider(pk, v), true);
      return if reply.Failed? then Failure(reply.error) else Success(());
    }

    method AddApplication(slug: string, name: string, pk: Pk) returns (r: Outcome<()>)
      modifies this`server, this`sent
      ensures r.OnNet(State()) == CreateApplication(faults, old(State()), slug, name, pk)
    {
      var reply := SendRequest(PostApplication(slug, name, pk), false);
      if reply.Failed? {
        if reply.error == Transient || reply.error == Conflict {
          var found :- GetApplication(slug);
          if found.Some? && found.value.provider == Some(pk) {
            return Success(());
          }
        }
        return Failure(reply.error);
      }
      return Success(());
    }

    method ChangeApplication(slug: string, name: string, pk: Pk) returns (r: Outcome<()>)
      modifies this`server, this`sent
      ensures r.OnNet(State()) == UpdateApplication(faults, old(State()), slug, name, pk)
    {
      var reply := SendRequest(PatchApplication(slug, name, pk), true);
      return if reply.Failed? then Failure(reply.error) else Success(());
    }

    method DropApplication(slug: string) returns (r: Outcome<()>)
      modifies this`server, this`sent
      ensures r.OnNet(State()) == RemoveApplication(faults, old(State()), slug)
    {
      var reply := SendRequest(DeleteApplication(slug), true);
      return if reply.Failed? && reply.error != NotFound then Failure(reply.error) else Success(());
    }

    method DropOauthProvider(pk: Pk) returns (r: Outcome<()>)
      modifies this`server, this`sent
      ensures r.OnNet(State()) == RemoveProvider(faults, old(State()), pk)
    {
      var reply := SendRequest(DeleteProvider(pk), true);
      return if reply.Failed? && reply.error != NotFound then Failure(reply.error) else Success(());
    }

    method GetFlowUuid(flow: Flow) returns (r: Outcome<string>)
      modifies this`server, this`sent
      ensures r.OnNet(State()) == ReadFlow(faults, old(State()), flow)
    {
      var reply := SendRequest(ListFlow(flow), true);
      match reply {
        case FlowRows(flows) => return if flows == [] then Failure(NotFound) else Success(flows[0]);
        case Failed(e) => return Failure(e);
        case _ => return Failure(Unexpected);
      }
    }

    /** The mapping of every scope, from a listing fetched at most once; one missing scope fails all. */
    method GetPropertyMappings(scopes: seq<string>) returns (r: Outcome<seq<string>>)
      modifies this
      ensures old(scopeMappings).Some? ==> State() == old(State()) && scopeMappings == old(scopeMappings)
      ensures old(scopeMappings).None? ==>
        match ReadMappings(faults, old(State()))
        case Ok(n, table) => State() == n && scopeMappings == Some(table)
        case Err(n, e) => State() == n && scopeMappings == None && r == Failure(e)
      ensures scopeMappings.Some? ==>
        if Supported(scopeMappings.value, scopes)
        then r == Success(MappingsOf(scopeMappings.value, scopes))
        else r == Failure(Validation)
    {
      if scopeMappings.None? {
        var reply := SendRequest(ListMappings, true);
        match reply {
          case MappingTable(t) => scopeMappings := Some(t);
          case Failed(e) => return Failure(e);
          case _ => return Failure(Unexpected);
        }
      }
      var table := scopeMappings.value;
      var found := [];
      for i := 0 to |scopes|
        invariant |found| == i && Supported(table, scopes[..i])
        invariant forall j :: 0 <= j < i ==> scopes[j] in table && found[j] == table[scopes[j]]
      {
        if scopes[i] !in table {
          return Failure(Validation);
        }
        found := found + [table[scopes[i]]];
      }
      assert found == MappingsOf(table, scopes);
      return Success(found);
    }
  }
}
