/** The presentation helpers of the dashboard (DashboardPage.jsx): the status
    colour tables, the status-selector labels and the rows of the order list. */
module DashboardView {
  import opened Gateway

  const RoverStatuses: set<string> := {"idle", "delivering", "charging"}
  const OrderStatuses: set<string> := {"placed", "preparing", "in_transit", "delivered", "cancelled"}

  const RoverStatusColors: map<string, string> := map[
    "idle" := "bg-gray-500 text-white",
    "delivering" := "bg-blue-500 text-white",
    "charging" := "bg-yellow-500 text-black"]

  const OrderStatusColors: map<string, string> := map[
    "placed" := "bg-blue-200 text-blue-800",
    "preparing" := "bg-yellow-200 text-yellow-800",
    "in_transit" := "bg-purple-200 text-purple-800",
    "delivered" := "bg-green-200 text-green-800",
    "cancelled" := "bg-red-200 text-red-800"]

  /** The class of an unselected status button. */
  const UnselectedButton := "bg-gray-700 text-gray-300 hover:bg-gray-600"

  /** The two tables cover exactly the three rover statuses and the five
      order statuses, and give every status its own classes. */
  lemma StatusTablesCoverStatuses()
    ensures RoverStatusColors.Keys == RoverStatuses
    ensures OrderStatusColors.Keys == OrderStatuses
    ensures forall s, t :: s in RoverStatusColors && t in RoverStatusColors && s != t ==>
              RoverStatusColors[s] != RoverStatusColors[t]
    ensures forall s, t :: s in OrderStatusColors && t in OrderStatusColors && s != t ==>
              OrderStatusColors[s] != OrderStatusColors[t]
  {
  }

  /** `${colors[key]}`: the table's classes, or the text "undefined" (which
      no style matches) for a key outside the table. */
  function ColorClass(colors: map<string, string>, key: string): (c: string)
    ensures key in colors ==> c == colors[key]
    ensures key !in colors ==> c == "undefined"
  {
    if key in colors then colors[key] else "undefined"
  }

  /** `String.prototype.toUpperCase` on one character, for the ASCII letters. */
  function UpperChar(c: char): (u: char)
    ensures 'a' <= c <= 'z' ==> u as int == c as int - 32 && 'A' <= u <= 'Z'
    ensures !('a' <= c <= 'z') ==> u == c
  {
    if 'a' <= c <= 'z' then (c as int - 32) as char else c
  }

  /** `toUpperCase`: every character upper-cased in place. */
  function Upper(s: string): (r: string)
    ensures |r| == |s|
    ensures forall i :: 0 <= i < |s| ==> r[i] == UpperChar(s[i])
  {
    if s == [] then [] else [UpperChar(s[0])] + Upper(s[1..])
  }

  /** The index of the first occurrence of `c` in `s`, or `|s|` when there is none. */
  function FirstIndex(s: string, c: char): (k: nat)
    ensures k <= |s|
    ensures k < |s| ==> s[k] == c
    ensures forall i :: 0 <= i < k ==> s[i] != c
  {
    if s == [] then 0
    else if s[0] == c then 0
    else 1 + FirstIndex(s[1..], c)
  }

  /** `s.replace(a, b)` with a one-character string pattern: only the first
      occurrence of `a` is replaced. */
  function ReplaceFirst(s: string, a: char, b: char): (r: string)
    ensures |r| == |s|
    ensures forall i :: 0 <= i < |s| ==> r[i] == if i == FirstIndex(s, a) then b else s[i]
  {
    if s == [] then []
    else if s[0] == a then [b] + s[1..]
    else [s[0]] + ReplaceFirst(s[1..], a, b)
  }

  /** The label of a status button: `option.replace('_', ' ').toUpperCase()`. */
  function ChoiceLabel(option: string): (text: string)
    ensures |text| == |option|
    ensures forall i :: 0 <= i < |option| && i != FirstIndex(option, '_') ==> text[i] == UpperChar(option[i])
    ensures FirstIndex(option, '_') < |option| ==> text[FirstIndex(option, '_')] == ' '
  {
    Upper(ReplaceFirst(option, '_', ' '))
  }

  /** Only the first underscore becomes a space: every later one survives, and
      every other character is upper-cased in place. */
  lemma ChoiceLabelKeepsLaterUnderscores(option: string, i: nat)
    requires FirstIndex(option, '_') < i < |option| && option[i] == '_'
    ensures ChoiceLabel(option)[i] == '_'
    ensures ChoiceLabel(option)[FirstIndex(option, '_')] == ' '
  {
  }

  /** The example of the order statuses: "in_transit" is shown as "IN TRANSIT". */
  lemma InTransitLabel()
    ensures ChoiceLabel("in_transit") == "IN TRANSIT"
  {
    var s := "in_transit";
    assert s[1..] == "n_transit";
    assert s[1..][1..] == "_transit";
    assert FirstIndex("_transit", '_') == 0;
    assert FirstIndex("n_transit", '_') == 1;
    assert FirstIndex(s, '_') == 2;
    var t := ChoiceLabel(s);
    assert UpperChar('i') == 'I' && UpperChar('n') == 'N' && UpperChar('t') == 'T' && UpperChar('r') == 'R';
    assert UpperChar('a') == 'A' && UpperChar('s') == 'S';
    forall i | 0 <= i < 10 ensures t[i] == "IN TRANSIT"[i] {
      if i != 2 { assert t[i] == UpperChar(s[i]); }
    }
  }

  /** One button of the status selector: its caption, and the table's classes
      when it is the selected value. */
  datatype Choice = Choice(caption: string, classes: string)

  function ChoiceButton(option: string, value: string, colors: map<string, string>): (b: Choice)
    ensures b.caption == ChoiceLabel(option)
    ensures value == option ==> b.classes == ColorClass(colors, option)
    ensures value != option ==> b.classes == UnselectedButton
  {
    Choice(ChoiceLabel(option), if value == option then ColorClass(colors, option) else UnselectedButton)
  }

  /** The buttons of a selector, one per option, in the options' order. */
  function ChoiceButtons(options: seq<string>, value: string, colors: map<string, string>): (bs: seq<Choice>)
    ensures |bs| == |options|
    ensures forall i :: 0 <= i < |options| ==> bs[i] == ChoiceButton(options[i], value, colors)
  {
    if options == [] then [] else [ChoiceButton(options[0], value, colors)] + ChoiceButtons(options[1..], value, colors)
  }

  /** `id.slice(0, 8)`: the first eight characters, or the whole id when it is
      shorter. */
  function IdPrefix(id: string): (p: string)
    ensures |p| == if |id| < 8 then |id| else 8
    ensures p == id[..|p|]
  {
    if |id| <= 8 then id else id[..8]
  }

  /** The text a JSX child `{record.field}` shows: the field's value, or
      nothing at all when the field is missing (React renders `undefined` as
      no text). */
  function FieldText(r: Rec, name: string): (t: string)
    ensures name in r.fields ==> t == r.fields[name]
    ensures name !in r.fields ==> t == ""
  {
    if name in r.fields then r.fields[name] else ""
  }

  /** One row of the customer's order list: the id prefix, the total, and a
      badge whose text is the upper-cased status (underscores kept) and whose
      classes come from the order table. */
  datatype OrderRow = OrderRow(title: string, total: string, badgeClasses: string, badgeText: string)

  function OrderRowOf(order: Rec): (row: OrderRow)
    requires "status" in order.fields
    ensures row.title == "Order #" + IdPrefix(order.id)
    ensures row.total == "Total: $" + FieldText(order, "totalPrice")
    ensures row.badgeClasses == ColorClass(OrderStatusColors, order.fields["status"])
    ensures |row.badgeText| == |order.fields["status"]|
    ensures forall i :: 0 <= i < |row.badgeText| ==> row.badgeText[i] == UpperChar(order.fields["status"][i])
  {
    OrderRow("Order #" + IdPrefix(order.id), "Total: $" + FieldText(order, "totalPrice"),
             ColorClass(OrderStatusColors, order.fields["status"]), Upper(order.fields["status"]))
  }

  /** The order list: one row per order, in the order the gateway returned them. */
  function OrderRows(orders: seq<Rec>): (rows: seq<OrderRow>)
    requires forall o :: o in orders ==> "status" in o.fields
    ensures |rows| == |orders|
    ensures forall i :: 0 <= i < |orders| ==> rows[i] == OrderRowOf(orders[i])
  {
    if orders == [] then [] else [OrderRowOf(orders[0])] + OrderRows(orders[1..])
  }

  lemma UpperPlaced()
    ensures Upper("placed") == "PLACED"
  {
  }

  lemma UpperDelivered()
    ensures Upper("delivered") == "DELIVERED"
  {
  }

  /** A placed and a delivered order give two rows, in the same order, with
      the blue and the green badge. */
  lemma PlacedThenDeliveredRows(a: Rec, b: Rec)
    requires Field(a, "status") == Some("placed") && Field(b, "status") == Some("delivered")
    ensures var rows := OrderRows([a, b]);
            |rows| == 2
            && rows[0].badgeClasses == "bg-blue-200 text-blue-800" && rows[0].badgeText == "PLACED"
            && rows[1].badgeClasses == "bg-green-200 text-green-800" && rows[1].badgeText == "DELIVERED"
  {
    var rows := OrderRows([a, b]);
    assert rows[0] == OrderRowOf(a) && rows[1] == OrderRowOf(b);
    UpperPlaced();
    UpperDelivered();
  }
}
