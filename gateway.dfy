/** The data-access gateway (the Manifest SDK client and the connectivity probe),
    modelled as an abstract step: every call is appended to a trace, and what the
    backend answers is an input, a function of the calls issued before and of the
    call itself. */
module Gateway {

  datatype Option<+T> = None | Some(value: T)

  /** The settled promise of one call: its value, or a rejection carrying the
      thrown error's `message`. */
  datatype Result<+T> = Ok(value: T) | Err(message: string)

  /** A record as the SDK returns it: its id and its scalar fields by name.
      Relations the SDK attaches are not modelled. */
  datatype Rec = Rec(id: string, fields: map<string, string>)

  /** The value of a field, or None where the record has no such field
      (JavaScript's `undefined`). */
  function Field(r: Rec, name: string): (v: Option<string>)
    ensures v.Some? <==> name in r.fields
    ensures v.Some? ==> v.value == r.fields[name]
  {
    if name in r.fields then Some(r.fields[name]) else None
  }

  /** The options of a `find`: an exact-match filter, the relations to attach
      (`with([...])`) and the optional `limit`. */
  datatype Query = Query(filter: map<string, string>, relations: seq<string>, limit: Option<nat>)

  /** One call issued to the outside world. */
  datatype Call =
    | Probe                                                  // testBackendConnection()
    | Me(collection: string)                                 // from(c).me()
    | Login(email: string, password: string)                 // login(email, password)
    | Logout                                                 // logout()
    | Signup(collection: string, fields: map<string, string>) // from(c).signup(fields)
    | Find(collection: string, query: Query)                 // from(c).with(rel).find(opts)
    | Create(collection: string, fields: map<string, string>) // from(c).create(fields)
    | Update(collection: string, id: string, fields: map<string, string>) // from(c).update(id, fields)

  /** How the backend settles each call, given the calls issued before it.
      `ack` answers the calls whose value the client ignores (the probe,
      login, logout, signup), `record` those that yield one record (me,
      create, update), `page` those that yield a list (the `data` of find). */
  datatype Backend = Backend(
    ack: (seq<Call>, Call) -> Result<()>,
    record: (seq<Call>, Call) -> Result<Rec>,
    page: (seq<Call>, Call) -> Result<seq<Rec>>)

  /** How a handler run ended: normally, by a rejection that propagates to its
      caller, or by a validation alert shown before any call. */
  datatype Outcome = Done | Thrown(message: string) | Alerted(text: string)

  /** One sequential run of a handler: the state it leaves, the calls it issued
      in order, and how it ended. */
  datatype Run<S> = Run(state: S, calls: seq<Call>, outcome: Outcome)

  /** The client object the components share (`manifest`): the backend it talks
      to and the trace of every call issued through it so far. */
  class Gateway {
    const backend: Backend
    var trace: seq<Call>

    constructor (backend: Backend)
      ensures this.backend == backend && trace == []
    {
      this.backend := backend;
      trace := [];
    }

    /** Issues a call whose settled value is ignored. */
    method Ack(c: Call) returns (r: Result<()>)
      modifies this
      ensures trace == old(trace) + [c]
      ensures r == backend.ack(old(trace), c)
    {
      r := backend.ack(trace, c);
      trace := trace + [c];
    }

    /** Issues a call that yields one record. */
    method Record(c: Call) returns (r: Result<Rec>)
      modifies this
      ensures trace == old(trace) + [c]
      ensures r == backend.record(old(trace), c)
    {
      r := backend.record(trace, c);
      trace := trace + [c];
    }

    /** Issues a `find`, which yields a list of records. */
    method Page(c: Call) returns (r: Result<seq<Rec>>)
      modifies this
      ensures trace == old(trace) + [c]
      ensures r == backend.page(old(trace), c)
    {
      r := backend.page(trace, c);
      trace := trace + [c];
    }
  }
}
