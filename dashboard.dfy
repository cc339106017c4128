/** The dashboard's controller (DashboardPage.jsx): the role-dispatching data
    load, the driver's rover-status update and the admin's rover creation. */
module Dashboard {
  import opened Gateway

  /** The admin's rover form; `operatorId` is null until a driver is picked. */
  datatype RoverForm = RoverForm(name: string, operatorId: Option<string>)

  const EmptyRoverForm := RoverForm("", None)

  /** The text of the alert shown when the rover form is incomplete. */
  const IncompleteRoverForm := "Please provide a name and select an operator."

  /** The dashboard's component state. */
  datatype Board = Board(
    outposts: seq<Rec>,
    myOrders: seq<Rec>,
    myDeliveries: seq<Rec>,
    myRover: Option<Rec>,
    drivers: seq<Rec>,
    newRover: RoverForm,
    isLoading: bool)

  /** The initial `useState` values. */
  const InitialBoard := Board([], [], [], None, [], EmptyRoverForm, true)

  /** The role a user record carries, if any. */
  function RoleOf(user: Rec): Option<string>
  {
    Field(user, "role")
  }

  /** `from('lunarOutpost').find()`. */
  const OutpostQuery := Find("lunarOutpost", Query(map[], [], None))

  /** A customer's orders, with their rover attached. */
  function CustomerOrdersQuery(user: Rec): Call
  {
    Find("order", Query(map["customerId" := user.id], ["rover"], None))
  }

  /** The rover a driver operates, at most one. */
  function DriverRoverQuery(user: Rec): Call
  {
    Find("lunarRover", Query(map["operatorId" := user.id], [], Some(1)))
  }

  /** The orders a rover delivers, with their customer attached. */
  function DeliveriesQuery(rover: Rec): Call
  {
    Find("order", Query(map["roverId" := rover.id], ["customer"], None))
  }

  /** The users an admin may pick as a rover's operator. */
  const DriversQuery := Find("user", Query(map["role" := "driver"], [], None))

  /** Every call of a run but the last was answered with a list: a rejected
      query is the last one issued. */
  ghost predicate StopsAtFirstFailure(b: Backend, h: seq<Call>, calls: seq<Call>)
  {
    forall i :: 0 <= i < |calls| - 1 ==> b.page(h + calls[..i], calls[i]).Ok?
  }

  /** `fetchData`: the outposts for every role, then the queries of the user's
      role. A rejection is caught and ends the run; what earlier steps stored
      stays stored; loading is over in every case. */
  function FetchRun(d: Board, user: Rec, b: Backend, h: seq<Call>): (r: Run<Board>)
    ensures r.outcome == Done && !r.state.isLoading
    ensures 1 <= |r.calls| <= 3 && r.calls[0] == OutpostQuery
    ensures StopsAtFirstFailure(b, h, r.calls)
    ensures r.state.newRover == d.newRover
    ensures b.page(h, OutpostQuery).Err? ==> r.calls == [OutpostQuery] && r.state == d.(isLoading := false)
    ensures b.page(h, OutpostQuery).Ok? ==> r.state.outposts == b.page(h, OutpostQuery).value
  {
    var r0 := b.page(h, OutpostQuery);
    if r0.Err? then Run(d.(isLoading := false), [OutpostQuery], Done)
    else
      var d0 := d.(outposts := r0.value);
      var h0 := h + [OutpostQuery];
      if RoleOf(user) == Some("customer") then
        var c1 := CustomerOrdersQuery(user);
        var r1 := b.page(h0, c1);
        assert h + [OutpostQuery, c1][..0] == h;
        if r1.Err? then Run(d0.(isLoading := false), [OutpostQuery, c1], Done)
        else Run(d0.(myOrders := r1.value, isLoading := false), [OutpostQuery, c1], Done)
      else if RoleOf(user) == Some("driver") then
        var c1 := DriverRoverQuery(user);
        var r1 := b.page(h0, c1);
        assert h + [OutpostQuery, c1][..0] == h;
        if r1.Err? || |r1.value| == 0 then Run(d0.(isLoading := false), [OutpostQuery, c1], Done)
        else
          var rover := r1.value[0];
          var d1 := d0.(myRover := Some(rover));
          var c2 := DeliveriesQuery(rover);
          var r2 := b.page(h0 + [c1], c2);
          assert h + [OutpostQuery, c1, c2][..0] == h;
          assert h + [OutpostQuery, c1, c2][..1] == h0;
          if r2.Err? then Run(d1.(isLoading := false), [OutpostQuery, c1, c2], Done)
          else Run(d1.(myDeliveries := r2.value, isLoading := false), [OutpostQuery, c1, c2], Done)
      else if RoleOf(user) == Some("admin") then
        var r1 := b.page(h0, DriversQuery);
        assert h + [OutpostQuery, DriversQuery][..0] == h;
        if r1.Err? then Run(d0.(isLoading := false), [OutpostQuery, DriversQuery], Done)
        else Run(d0.(drivers := r1.value, isLoading := false), [OutpostQuery, DriversQuery], Done)
      else Run(d0.(isLoading := false), [OutpostQuery], Done)
  }

  /** A customer's load: at most one query after the outposts, the customer's
      orders with their rover, which become `myOrders`; nothing a driver or
      an admin loads is touched. */
  lemma FetchForCustomer(d: Board, user: Rec, b: Backend, h: seq<Call>)
    requires RoleOf(user) == Some("customer")
    ensures var r := FetchRun(d, user, b, h);
            var h0 := h + [OutpostQuery];
            && |r.calls| <= 2
            && (b.page(h, OutpostQuery).Ok? ==> r.calls == [OutpostQuery, CustomerOrdersQuery(user)])
            && (b.page(h, OutpostQuery).Ok? && b.page(h0, CustomerOrdersQuery(user)).Ok? ==>
                  r.state.myOrders == b.page(h0, CustomerOrdersQuery(user)).value)
            && (b.page(h, OutpostQuery).Ok? && b.page(h0, CustomerOrdersQuery(user)).Err? ==>
                  r.state.myOrders == d.myOrders)
            && r.state.myRover == d.myRover && r.state.myDeliveries == d.myDeliveries
            && r.state.drivers == d.drivers
  {
  }

  /** A driver's load: the driver's rover (limit one); when there is none, or
      the query is rejected, no order query and `myRover` and `myDeliveries`
      untouched; otherwise the first rover becomes `myRover` and its
      deliveries, queried with their customer, become `myDeliveries` unless
      that query is rejected. */
  lemma FetchForDriver(d: Board, user: Rec, b: Backend, h: seq<Call>)
    requires RoleOf(user) == Some("driver")
    ensures var r := FetchRun(d, user, b, h);
            var h0 := h + [OutpostQuery];
            var rovers := b.page(h0, DriverRoverQuery(user));
            && (b.page(h, OutpostQuery).Ok? ==> |r.calls| >= 2 && r.calls[1] == DriverRoverQuery(user))
            && (b.page(h, OutpostQuery).Ok? && (rovers.Err? || rovers.value == []) ==>
                  r.calls == [OutpostQuery, DriverRoverQuery(user)]
                  && r.state.myRover == d.myRover && r.state.myDeliveries == d.myDeliveries)
            && (b.page(h, OutpostQuery).Ok? && rovers.Ok? && rovers.value != [] ==>
                  var deliveries := b.page(h0 + [DriverRoverQuery(user)], DeliveriesQuery(rovers.value[0]));
                  r.calls == [OutpostQuery, DriverRoverQuery(user), DeliveriesQuery(rovers.value[0])]
                  && r.state.myRover == Some(rovers.value[0])
                  && (deliveries.Ok? ==> r.state.myDeliveries == deliveries.value)
                  && (deliveries.Err? ==> r.state.myDeliveries == d.myDeliveries))
            && (forall i :: 0 <= i < |r.calls| && r.calls[i].Find? && r.calls[i].collection == "order" ==>
                  i == 2 && rovers.Ok? && rovers.value != [] && r.calls[i] == DeliveriesQuery(rovers.value[0]))
            && r.state.myOrders == d.myOrders && r.state.drivers == d.drivers
  {
  }

  /** An admin's load: the drivers, which become `drivers` unless the query is
      rejected, and nothing else beyond the outposts. */
  lemma FetchForAdmin(d: Board, user: Rec, b: Backend, h: seq<Call>)
    requires RoleOf(user) == Some("admin")
    ensures var r := FetchRun(d, user, b, h);
            var h0 := h + [OutpostQuery];
            && (b.page(h, OutpostQuery).Ok? ==> r.calls == [OutpostQuery, DriversQuery])
            && (b.page(h, OutpostQuery).Ok? && b.page(h0, DriversQuery).Ok? ==>
                  r.state.drivers == b.page(h0, DriversQuery).value)
            && (b.page(h, OutpostQuery).Ok? && b.page(h0, DriversQuery).Err? ==> r.state.drivers == d.drivers)
            && r.state.myOrders == d.myOrders && r.state.myRover == d.myRover
            && r.state.myDeliveries == d.myDeliveries
  {
  }

  /** Any other role, or none, loads only the outposts. */
  lemma FetchForOtherRoles(d: Board, user: Rec, b: Backend, h: seq<Call>)
    requires RoleOf(user) !in {Some("customer"), Some("driver"), Some("admin")}
    ensures var r := FetchRun(d, user, b, h);
            r.calls == [OutpostQuery]
            && r.state == d.(outposts := r.state.outposts, isLoading := false)
  {
  }

  /** `handleUpdateRoverStatus`: nothing without a rover; otherwise one update
      of the rover's status, and the record the server returns replaces the
      local rover (a rejection propagates and changes nothing). */
  function UpdateStatusRun(d: Board, status: string, b: Backend, h: seq<Call>): (r: Run<Board>)
    ensures d.myRover.None? ==> r == Run(d, [], Done)
    ensures d.myRover.Some? ==>
              r.calls == [Update("lunarRover", d.myRover.value.id, map["status" := status])]
    ensures d.myRover.Some? && b.record(h, r.calls[0]).Ok? ==>
              r.outcome == Done && r.state == d.(myRover := Some(b.record(h, r.calls[0]).value))
    ensures d.myRover.Some? && b.record(h, r.calls[0]).Err? ==>
              r.outcome == Thrown(b.record(h, r.calls[0]).message) && r.state == d
  {
    if d.myRover.None? then Run(d, [], Done)
    else
      var c := Update("lunarRover", d.myRover.value.id, map["status" := status]);
      var updated := b.record(h, c);
      if updated.Err? then Run(d, [c], Thrown(updated.message))
      else Run(d.(myRover := Some(updated.value)), [c], Done)
  }

  /** Whether the rover form may be submitted: a non-empty name and a
      non-empty operator id (JavaScript truthiness of both). */
  predicate RoverFormComplete(f: RoverForm)
  {
    f.name != "" && f.operatorId.Some? && f.operatorId.value != ""
  }

  /** `handleCreateRover`: an incomplete form raises the alert and issues no
      call; otherwise exactly `{name, operatorId}` is created, and the form is
      reset only when the creation succeeds. The created record is not merged
      into any list. */
  function CreateRoverRun(d: Board, b: Backend, h: seq<Call>): (r: Run<Board>)
    ensures !RoverFormComplete(d.newRover) ==> r == Run(d, [], Alerted(IncompleteRoverForm))
    ensures RoverFormComplete(d.newRover) ==>
              r.calls == [Create("lunarRover", map["name" := d.newRover.name,
                                                   "operatorId" := d.newRover.operatorId.value])]
    ensures RoverFormComplete(d.newRover) && b.record(h, r.calls[0]).Ok? ==>
              r.outcome == Done && r.state == d.(newRover := EmptyRoverForm)
    ensures RoverFormComplete(d.newRover) && b.record(h, r.calls[0]).Err? ==>
              r.outcome == Thrown(b.record(h, r.calls[0]).message) && r.state == d
  {
    if !RoverFormComplete(d.newRover) then Run(d, [], Alerted(IncompleteRoverForm))
    else
      var c := Create("lunarRover", map["name" := d.newRover.name, "operatorId" := d.newRover.operatorId.value]);
      var created := b.record(h, c);
      if created.Err? then Run(d, [c], Thrown(created.message))
      else Run(d.(newRover := EmptyRoverForm), [c], Done)
  }

  /** The example of an admin deploying "Rover-01" for driver 7. */
  lemma CreateRover01(d: Board, b: Backend, h: seq<Call>)
    requires d.newRover == RoverForm("Rover-01", Some("7"))
    requires b.record(h, Create("lunarRover", map["name" := "Rover-01", "operatorId" := "7"])).Ok?
    ensures var r := CreateRoverRun(d, b, h);
            r.calls == [Create("lunarRover", map["name" := "Rover-01", "operatorId" := "7"])]
            && r.state.newRover == EmptyRoverForm && r.outcome == Done
  {
  }

  /** What the dashboard's main area shows: the loading text, or the section
      of the user's role with exactly the data that role loaded. */
  datatype Panel =
    | LoadingPanel
    | CustomerPanel(outposts: seq<Rec>, orders: seq<Rec>)
    | DriverPanel(rover: Rec, deliveries: seq<Rec>)
    | AdminPanel(drivers: seq<Rec>, form: RoverForm)
    | NoPanel

  /** The role dispatch of the dashboard's rendering. A driver without a
      rover, and a user of any other role, sees no section. */
  function PanelOf(d: Board, user: Rec): (p: Panel)
    ensures p == LoadingPanel <==> d.isLoading
    ensures p.CustomerPanel? <==> !d.isLoading && RoleOf(user) == Some("customer")
    ensures p.DriverPanel? <==> !d.isLoading && RoleOf(user) == Some("driver") && d.myRover.Some?
    ensures p.AdminPanel? <==> !d.isLoading && RoleOf(user) == Some("admin")
    ensures p.CustomerPanel? ==> p.outposts == d.outposts && p.orders == d.myOrders
    ensures p.DriverPanel? ==> Some(p.rover) == d.myRover && p.deliveries == d.myDeliveries
    ensures p.AdminPanel? ==> p.drivers == d.drivers && p.form == d.newRover
  {
    if d.isLoading then LoadingPanel
    else if RoleOf(user) == Some("customer") then CustomerPanel(d.outposts, d.myOrders)
    else if RoleOf(user) == Some("driver") && d.myRover.Some? then DriverPanel(d.myRover.value, d.myDeliveries)
    else if RoleOf(user) == Some("admin") then AdminPanel(d.drivers, d.newRover)
    else NoPanel
  }

  /** After a load, a driver whose rover query came back empty sees no rover
      section (starting from the initial state). */
  lemma DriverWithoutRoverSeesNoPanel(user: Rec, b: Backend, h: seq<Call>)
    requires RoleOf(user) == Some("driver")
    requires b.page(h + [OutpostQuery], DriverRoverQuery(user)) == Ok([])
    ensures PanelOf(FetchRun(InitialBoard, user, b, h).state, user) == NoPanel
  {
  }

  /** The dashboard of one signed-in user, sharing the shell's client. */
  class DashboardPage {
    const user: Rec
    const gw: Gateway
    var outposts: seq<Rec>
    var myOrders: seq<Rec>
    var myDeliveries: seq<Rec>
    var myRover: Option<Rec>
    var drivers: seq<Rec>
    var newRover: RoverForm
    var isLoading: bool

    function State(): Board
      reads this
    {
      Board(outposts, myOrders, myDeliveries, myRover, drivers, newRover, isLoading)
    }

    constructor (user: Rec, gw: Gateway)
      ensures State() == InitialBoard && this.user == user && this.gw == gw
    {
      this.user, this.gw := user, gw;
      outposts, myOrders, myDeliveries, myRover, drivers := [], [], [], None, [];
      newRover, isLoading := EmptyRoverForm, true;
    }

    /** `fetchData`, run by the effect whenever the user is set. */
    method FetchData()
      modifies this, gw
      ensures var r := FetchRun(old(State()), user, gw.backend, old(gw.trace));
              State() == r.state && gw.trace == old(gw.trace) + r.calls
    {
      ghost var h := gw.trace;
      isLoading := true;
      var outpostRes := gw.Page(OutpostQuery);
      if outpostRes.Ok? {
        outposts := outpostRes.value;
        var role := RoleOf(user);
        if role == Some("customer") {
          var orderRes := gw.Page(CustomerOrdersQuery(user));
          if orderRes.Ok? {
            myOrders := orderRes.value;
          }
          assert gw.trace == h + [OutpostQuery, CustomerOrdersQuery(user)];
        } else if role == Some("driver") {
          var roverRes := gw.Page(DriverRoverQuery(user));
          if roverRes.Ok? && |roverRes.value| > 0 {
            var rover := roverRes.value[0];
            myRover := Some(rover);
            var deliveryRes := gw.Page(DeliveriesQuery(rover));
            if deliveryRes.Ok? {
              myDeliveries := deliveryRes.value;
            }
            assert gw.trace == h + [OutpostQuery, DriverRoverQuery(user), DeliveriesQuery(rover)];
          } else {
            assert gw.trace == h + [OutpostQuery, DriverRoverQuery(user)];
          }
        } else if role == Some("admin") {
          var driverRes := gw.Page(DriversQuery);
          if driverRes.Ok? {
            drivers := driverRes.value;
          }
          assert gw.trace == h + [OutpostQuery, DriversQuery];
        }
      }
      isLoading := false;
    }

    method HandleUpdateRoverStatus(status: string) returns (o: Outcome)
      modifies this, gw
      ensures var r := UpdateStatusRun(old(State()), status, gw.backend, old(gw.trace));
              State() == r.state && gw.trace == old(gw.trace) + r.calls && o == r.outcome
    {
      if myRover.None? {
        return Done;
      }
      var updatedRover := gw.Record(Update("lunarRover", myRover.value.id, map["status" := status]));
      if updatedRover.Err? {
        return Thrown(updatedRover.message);
      }
      myRover := Some(updatedRover.value);
      o := Done;
    }

    method HandleCreateRover() returns (o: Outcome)
      modifies this, gw
      ensures var r := CreateRoverRun(old(State()), gw.backend, old(gw.trace));
              State() == r.state && gw.trace == old(gw.trace) + r.calls && o == r.outcome
    {
      if !RoverFormComplete(newRover) {
        return Alerted(IncompleteRoverForm);
      }
      var created := gw.Record(Create("lunarRover", map["name" := newRover.name,
                                                        "operatorId" := newRover.operatorId.value]));
      if created.Err? {
        return Thrown(created.message);
      }
      newRover := EmptyRoverForm;
      o := Done;
    }

    /** The name input of the rover form. */
    method SetRoverName(name: string)
      modifies this
      ensures State() == old(State()).(newRover := old(newRover).(name := name))
    {
      newRover := newRover.(name := name);
    }

    /** The operator picker of the rover form: the picked driver's id. */
    method SetRoverOperator(operatorId: string)
      modifies this
      ensures State() == old(State()).(newRover := old(newRover).(operatorId := Some(operatorId)))
    {
      newRover := newRover.(operatorId := Some(operatorId));
    }
  }
}
