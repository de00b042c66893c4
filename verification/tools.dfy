/**
 * The tool handlers of the customer-service assistant and the `tools_mapping`
 * registry the chat client dispatches on.  A handler is called with keyword
 * arguments (`handler(**kwargs)`), so Python's argument binding is modelled:
 * an unexpected or missing keyword raises `TypeError` before the body runs.
 * The spreadsheet and random-choice handlers take their data from an
 * explicit `Backends` oracle.
 */
module Tools {
  import opened Wrappers
  import opened Json
  import opened Text

  /** Keyword arguments of one call, after `function_args['out_queue'] = ...`. */
  type Kwargs = map<string, Value>

  /** Exceptions a handler call can raise. */
  datatype PyError = TypeError | AttributeError

  datatype Handler =
    | RaiseTicket
    | TrackRefund
    | CancelOrder
    | ScheduleCallback
    | CheckOrderStatus
    | ProcessReturn
    | GetProductInfo
    | UpdateAccountInfo
    | GetCustomerInfo
    | TrackShipment

  /** A Python signature: parameters without and with defaults, and whether `**kwargs` is accepted. */
  datatype Signature = Signature(required: seq<string>, optional: seq<string>, extraKeywords: bool)

  function SignatureOf(h: Handler): Signature {
    match h
    case RaiseTicket => Signature(["customer_id", "issue", "out_queue"], [], false)
    case TrackRefund => Signature(["phone_number", "out_queue"], [], false)
    case CancelOrder => Signature(["phone_number", "reason", "out_queue"], [], false)
    case ScheduleCallback => Signature(["customer_id", "callback_time", "out_queue"], [], false)
    case CheckOrderStatus => Signature(["phone_number"], ["out_queue"], false)
    case ProcessReturn => Signature(["phone_number", "reason", "out_queue"], [], false)
    case GetProductInfo => Signature(["customer_id", "product_id", "out_queue"], [], false)
    case UpdateAccountInfo => Signature(["customer_id", "field", "value", "out_queue"], [], false)
    case GetCustomerInfo => Signature(["customer_id", "out_queue"], [], false)
    case TrackShipment => Signature(["customer_id", "tracking_number", "out_queue"], [], false)
  }

  /** `f(**kw)` binds: every parameter without default is given and no keyword is unknown. */
  predicate Binds(sig: Signature, kw: Kwargs) {
    && (forall p :: p in sig.required ==> p in kw)
    && (sig.extraKeywords || forall k :: k in kw ==> k in sig.required || k in sig.optional)
  }

  /** Results of the handlers that read a spreadsheet or draw at random. */
  datatype Backends = Backends(
    orderRows: Value -> Option<string>,  // Sheet2 rows for the phone number as markdown; None when none match
    refundRows: Value -> Option<string>, // Sheet1 rows for the phone number as markdown; None when none match
    shipmentPick: nat)                   // the index `random.choice` picked

  const ShipmentStatuses: seq<string> := ["In Transit", "Out for Delivery", "Delivered", "Delayed"]

  /** ASCII upper and lower case. */
  function Upper(c: char): char {
    if 'a' <= c <= 'z' then (c as int - 32) as char else c
  }

  function Lower(c: char): char {
    if 'A' <= c <= 'Z' then (c as int + 32) as char else c
  }

  function LowerAll(s: string): (r: string)
    ensures |r| == |s|
    ensures forall i :: 0 <= i < |s| ==> r[i] == Lower(s[i])
  {
    if s == [] then "" else [Lower(s[0])] + LowerAll(s[1..])
  }

  /** `str.capitalize()`: first character upper case, all others lower case. */
  function Capitalize(s: string): (r: string)
    ensures |r| == |s|
    ensures |s| > 0 ==> r[0] == Upper(s[0])
    ensures forall i :: 0 < i < |s| ==> r[i] == Lower(s[i])
  {
    if s == [] then "" else [Upper(s[0])] + LowerAll(s[1..])
  }

  /** `json.dumps(products.get(product_id, "Product not found"))`. */
  function ProductJson(productId: Value): string {
    if productId == Str("P001") then "{\"name\": \"Wireless Earbuds\", \"price\": 79.99, \"stock\": 50}"
    else if productId == Str("P002") then "{\"name\": \"Smart Watch\", \"price\": 199.99, \"stock\": 30}"
    else if productId == Str("P003") then "{\"name\": \"Laptop Backpack\", \"price\": 49.99, \"stock\": 100}"
    else "\"Product not found\""
  }

  /** The simulated customer table: membership level and account status. */
  function CustomerRecord(customerId: Value): Option<(string, string)> {
    if customerId == Str("C001") then Some(("Gold", "Active"))
    else if customerId == Str("C002") then Some(("Silver", "Pending"))
    else if customerId == Str("C003") then Some(("Bronze", "Inactive"))
    else None
  }

  function Arg(kw: Kwargs, name: string): Value {
    Get(kw, name)
  }

  /** The body of a handler whose arguments have been bound. */
  function Body(h: Handler, kw: Kwargs, backends: Backends): Result<string, PyError> {
    match h
    case RaiseTicket =>
      Success("Ticket raised for customer " + Show(Arg(kw, "customer_id")) + ". Issue: " + Show(Arg(kw, "issue"))
              + ". A representative will contact you shortly.")
    case TrackRefund =>
      (match backends.refundRows(Arg(kw, "phone_number"))
       case None => Success("No refund found for phone number " + Show(Arg(kw, "phone_number")))
       case Some(table) => Success(table))
    case CancelOrder =>
      Success("Order for phone number " + Show(Arg(kw, "phone_number")) + " has been cancelled. Reason: "
              + Show(Arg(kw, "reason")) + ". A confirmation email has been sent.")
    case ScheduleCallback =>
      Success("Callback scheduled for customer " + Show(Arg(kw, "customer_id")) + " at " + Show(Arg(kw, "callback_time"))
              + ". A representative will contact you then.")
    case CheckOrderStatus =>
      (match backends.orderRows(Arg(kw, "phone_number"))
       case None => Success("No orders found for phone number " + Show(Arg(kw, "phone_number")))
       case Some(table) => Success(table))
    case ProcessReturn =>
      Success("Return initiated for phone number " + Show(Arg(kw, "phone_number")) + ". Reason: " + Show(Arg(kw, "reason"))
              + ". Please expect a refund within 5-7 business days.")
    case GetProductInfo =>
      // `products.get(product_id, ...)` hashes the id
      if !Hashable(Arg(kw, "product_id")) then Failure(TypeError)
      else Success("Product information for customer " + Show(Arg(kw, "customer_id")) + ": " + ProductJson(Arg(kw, "product_id")))
    case UpdateAccountInfo =>
      (match Arg(kw, "field")
       case Str(field) =>
         Success("Account information updated for customer " + Show(Arg(kw, "customer_id")) + ". " + Capitalize(field)
                 + " changed to: " + Show(Arg(kw, "value")))
       case _ => Failure(AttributeError))
    case GetCustomerInfo =>
      // `customers.get(customer_id, out_queue)` hashes the id
      if !Hashable(Arg(kw, "customer_id")) then Failure(TypeError)
      else (match CustomerRecord(Arg(kw, "customer_id"))
       case Some((level, status)) =>
         Success("{\"customer_id\": \"" + Show(Arg(kw, "customer_id")) + "\", \"membership_level\": \"" + level
                 + "\", \"account_status\": \"" + status + "\"}")
       case None =>
         // the lookup default is `out_queue`; a truthy queue object is then subscripted
         if Truthy(Arg(kw, "out_queue")) then Failure(TypeError)
         else Success("Customer with ID " + Show(Arg(kw, "customer_id")) + " not found."))
    case TrackShipment =>
      Success("Shipment for customer " + Show(Arg(kw, "customer_id")) + " with tracking number "
              + Show(Arg(kw, "tracking_number")) + " is currently: " + ShipmentStatuses[backends.shipmentPick % 4] + ".")
  }

  /**
   * `await handler(**kw)`: binding first, then the body.  A missing parameter
   * or an undeclared keyword raises `TypeError` whatever the handler; once the
   * arguments bind, only the account update (`capitalize` on a non-string),
   * the product lookup (an id that cannot be a dict key) and the customer
   * lookup (such an id, or subscripting a truthy queue) can raise.
   */
  function Invoke(h: Handler, kw: Kwargs, backends: Backends): (r: Result<string, PyError>)
    ensures (exists p :: p in SignatureOf(h).required && p !in kw) ==> r == Failure(TypeError)
    ensures !SignatureOf(h).extraKeywords && (exists k :: k in kw && k !in SignatureOf(h).required && k !in SignatureOf(h).optional)
            ==> r == Failure(TypeError)
    ensures Binds(SignatureOf(h), kw) && h !in {UpdateAccountInfo, GetProductInfo, GetCustomerInfo} ==> r.Success?
    ensures Binds(SignatureOf(h), kw) && h == GetProductInfo ==> (r.Success? <==> Hashable(kw["product_id"]))
    ensures r == Failure(AttributeError) ==> h == UpdateAccountInfo && Binds(SignatureOf(h), kw)
  {
    if Binds(SignatureOf(h), kw) then Body(h, kw, backends) else Failure(TypeError)
  }

  /** The names `tools_mapping` binds, with their handlers. */
  const Mapping: map<string, Handler> := map[
    "get_all_order_for_customer" := CheckOrderStatus,
    "get_all_refund_details_for_customer" := TrackRefund,
    "raise_ticket" := RaiseTicket,
    "cancel_order" := CancelOrder,
    "schedule_callback" := ScheduleCallback,
    "process_return" := ProcessReturn,
    "get_product_info" := GetProductInfo,
    "update_account_info" := UpdateAccountInfo,
    "get_customer_info" := GetCustomerInfo,
    "track_shipment" := TrackShipment]

  /** The three functions the tool schema advertises to the model. */
  const AdvertisedNames: set<string> := {"get_all_order_for_customer", "get_all_refund_details_for_customer", "raise_ticket"}

  /** A registered tool: keyword arguments in, result text or exception out. */
  type Tool = Kwargs -> Result<string, PyError>

  /** The keyword arguments a handler receives once `reply_to_customer` has been taken out. */
  function WithoutReply(kw: Kwargs): (r: Kwargs)
    ensures "reply_to_customer" !in r
    ensures forall k :: k in kw && k != "reply_to_customer" ==> k in r && r[k] == kw[k]
    ensures forall k :: k in r ==> k in kw
  {
    kw - {"reply_to_customer"}
  }

  /** `tools_mapping` as written: the handler receives every parsed argument. */
  function RegistryAsWritten(backends: Backends): (r: map<string, Tool>)
    ensures r.Keys == Mapping.Keys
    ensures forall name, kw: Kwargs :: name in r && "reply_to_customer" in kw ==> r[name](kw) == Failure(TypeError)
  {
    var r := map name | name in Mapping :: (kw: Kwargs) => Invoke(Mapping[name], kw, backends);
    forall name, kw: Kwargs | name in r && "reply_to_customer" in kw
      ensures r[name](kw) == Failure(TypeError)
    {
      assert !Binds(SignatureOf(Mapping[name]), kw);
    }
    r
  }

  /**
   * The registry the rest of the model uses: the customer reply, already
   * consumed by the chat client, is not passed on to the handler.
   */
  function Registry(backends: Backends): (r: map<string, Tool>)
    ensures r.Keys == Mapping.Keys
    ensures forall name, kw: Kwargs :: name in r ==> r[name](kw) == RegistryAsWritten(backends)[name](WithoutReply(kw))
  {
    map name | name in Mapping :: (kw: Kwargs) => Invoke(Mapping[name], WithoutReply(kw), backends)
  }

  // ---------------------------------------------------------------- properties

  /** The registry binds exactly ten names, among them every advertised one. */
  lemma RegistryNames(backends: Backends)
    ensures Registry(backends).Keys == Mapping.Keys && RegistryAsWritten(backends).Keys == Mapping.Keys
    ensures Mapping.Keys == {"get_all_order_for_customer", "get_all_refund_details_for_customer", "raise_ticket",
                             "cancel_order", "schedule_callback", "process_return", "get_product_info",
                             "update_account_info", "get_customer_info", "track_shipment"}
    ensures AdvertisedNames <= Registry(backends).Keys
  {
  }

  /** Keyword arguments carrying exactly the named parameters. */
  predicate ExactlyKeys(kw: Kwargs, names: set<string>) {
    kw.Keys == names
  }

  /** Passing exactly the parameters a handler declares binds. */
  lemma ExactKeywordsBind(h: Handler, kw: Kwargs)
    requires ExactlyKeys(kw, set p | p in SignatureOf(h).required)
    ensures Binds(SignatureOf(h), kw)
  {
  }

  /** A ticket is acknowledged with a fixed sentence around the customer and issue; `out_queue` is ignored. */
  lemma RaiseTicketReply(kw: Kwargs, backends: Backends, queue: Value)
    requires ExactlyKeys(kw, {"customer_id", "issue", "out_queue"})
    ensures Invoke(RaiseTicket, kw, backends) == Invoke(RaiseTicket, kw["out_queue" := queue], backends)
    ensures Invoke(RaiseTicket, kw, backends)
         == Success("Ticket raised for customer " + Show(kw["customer_id"]) + ". Issue: " + Show(kw["issue"])
                    + ". A representative will contact you shortly.")
  {
  }

  /** The cancellation reply is a function of the phone number and reason alone. */
  lemma CancelOrderDependsOnPhoneAndReason(kw1: Kwargs, kw2: Kwargs, b1: Backends, b2: Backends)
    requires ExactlyKeys(kw1, {"phone_number", "reason", "out_queue"})
    requires ExactlyKeys(kw2, {"phone_number", "reason", "out_queue"})
    requires kw1["phone_number"] == kw2["phone_number"] && kw1["reason"] == kw2["reason"]
    ensures Invoke(CancelOrder, kw1, b1) == Invoke(CancelOrder, kw2, b2)
    ensures Invoke(CancelOrder, kw1, b1).Success?
  {
  }

  /** Callback scheduling and returns are fixed sentences over their two arguments. */
  lemma TemplateHandlersDependOnTheirArguments(kw1: Kwargs, kw2: Kwargs, b1: Backends, b2: Backends)
    requires ExactlyKeys(kw1, {"customer_id", "callback_time", "out_queue"})
    requires ExactlyKeys(kw2, {"phone_number", "reason", "out_queue"})
    ensures Invoke(ScheduleCallback, kw1, b1)
         == Invoke(ScheduleCallback, kw1["out_queue" := Null], b2)
    ensures Invoke(ProcessReturn, kw2, b1)
         == Invoke(ProcessReturn, kw2["out_queue" := Null], b2)
    ensures Invoke(ScheduleCallback, kw1, b1).Success? && Invoke(ProcessReturn, kw2, b1).Success?
  {
    ExactKeywordsBind(ScheduleCallback, kw1);
    ExactKeywordsBind(ScheduleCallback, kw1["out_queue" := Null]);
    ExactKeywordsBind(ProcessReturn, kw2);
    ExactKeywordsBind(ProcessReturn, kw2["out_queue" := Null]);
  }

  /**
   * The field name is embedded capitalised (first letter upper case, the rest
   * lower case), followed by the new value verbatim.
   */
  lemma UpdateAccountInfoCapitalises(kw: Kwargs, backends: Backends, field: string)
    requires ExactlyKeys(kw, {"customer_id", "field", "value", "out_queue"})
    requires kw["field"] == Str(field)
    ensures Invoke(UpdateAccountInfo, kw, backends)
         == Success("Account information updated for customer " + Show(kw["customer_id"]) + ". "
                    + Capitalize(field) + " changed to: " + Show(kw["value"]))
    ensures |Capitalize(field)| == |field|
    ensures |field| > 0 ==> Capitalize(field)[0] == Upper(field[0])
    ensures forall i :: 0 < i < |field| ==> Capitalize(field)[i] == Lower(field[i])
  {
    ExactKeywordsBind(UpdateAccountInfo, kw);
  }

  /** A field that is not a string has no `capitalize` method. */
  lemma UpdateAccountInfoNeedsStringField(kw: Kwargs, backends: Backends)
    requires ExactlyKeys(kw, {"customer_id", "field", "value", "out_queue"})
    requires !kw["field"].Str?
    ensures Invoke(UpdateAccountInfo, kw, backends) == Failure(AttributeError)
  {
  }

  /**
   * Only P001, P002 and P003 are known; any other id that can be a dict key
   * reports the JSON string "Product not found", and a list or object id raises.
   */
  lemma ProductInfoLookup(kw: Kwargs, backends: Backends)
    requires ExactlyKeys(kw, {"customer_id", "product_id", "out_queue"})
    ensures var r := Invoke(GetProductInfo, kw, backends);
            !Hashable(kw["product_id"]) <==> r == Failure(TypeError)
    ensures var prefix := "Product information for customer " + Show(kw["customer_id"]) + ": ";
            var r := Invoke(GetProductInfo, kw, backends);
            Hashable(kw["product_id"]) ==>
              && r.Success?
              && (kw["product_id"] !in {Str("P001"), Str("P002"), Str("P003")} <==> r.value == prefix + "\"Product not found\"")
  {
  }

  /** Known customers are reported as JSON with id, membership level and account status, in that order. */
  lemma CustomerInfoKnown(kw: Kwargs, backends: Backends, id: string)
    requires ExactlyKeys(kw, {"customer_id", "out_queue"})
    requires kw["customer_id"] == Str(id) && id in {"C001", "C002", "C003"}
    ensures var r := Invoke(GetCustomerInfo, kw, backends);
            var rec := CustomerRecord(Str(id)).value;
            r == Success("{\"customer_id\": \"" + id + "\", \"membership_level\": \"" + rec.0
                         + "\", \"account_status\": \"" + rec.1 + "\"}")
  {
  }

  /**
   * An unknown customer is reported as not found when `out_queue` is None; a
   * truthy queue becomes the lookup default and subscripting it raises, and
   * so does an id that cannot be a dict key, whatever the queue.
   */
  lemma CustomerInfoUnknown(kw: Kwargs, backends: Backends)
    requires ExactlyKeys(kw, {"customer_id", "out_queue"})
    requires CustomerRecord(kw["customer_id"]).None?
    ensures Hashable(kw["customer_id"]) && kw["out_queue"] == Null
            ==> Invoke(GetCustomerInfo, kw, backends) == Success("Customer with ID " + Show(kw["customer_id"]) + " not found.")
    ensures Truthy(kw["out_queue"]) ==> Invoke(GetCustomerInfo, kw, backends) == Failure(TypeError)
    ensures !Hashable(kw["customer_id"]) ==> Invoke(GetCustomerInfo, kw, backends) == Failure(TypeError)
  {
  }

  /** The shipment status is always one of the four fixed statuses. */
  lemma ShipmentStatusIsListed(kw: Kwargs, backends: Backends)
    requires ExactlyKeys(kw, {"customer_id", "tracking_number", "out_queue"})
    ensures var r := Invoke(TrackShipment, kw, backends);
            var lead := "Shipment for customer " + Show(kw["customer_id"]) + " with tracking number "
                        + Show(kw["tracking_number"]) + " is currently: ";
            r.Success? && (exists k :: 0 <= k < 4 && r.value == lead + ShipmentStatuses[k] + ".")
  {
    var k := backends.shipmentPick % 4;
    assert 0 <= k < 4;
  }

  // ------------------------------------------------- the reply_to_customer argument

  /** No handler the registry binds accepts a keyword it does not declare. */
  lemma MappedHandlersTakeNoExtraKeywords(name: string)
    requires name in Mapping
    ensures !SignatureOf(Mapping[name]).extraKeywords
    ensures "reply_to_customer" !in SignatureOf(Mapping[name]).required
    ensures "reply_to_customer" !in SignatureOf(Mapping[name]).optional
  {
  }

  /**
   * As written, a registered tool called with a `reply_to_customer` keyword
   * raises `TypeError`, whichever tool it is and whatever else is passed.
   */
  lemma ReplyBreaksRegistryAsWritten(backends: Backends, name: string, kw: Kwargs)
    requires name in Mapping && "reply_to_customer" in kw
    ensures name in RegistryAsWritten(backends)
    ensures RegistryAsWritten(backends)[name](kw) == Failure(TypeError)
  {
    MappedHandlersTakeNoExtraKeywords(name);
    assert !Binds(SignatureOf(Mapping[name]), kw);
  }

  /**
   * The corrected registry behaves as written on the arguments without the
   * reply, so the reply never changes what a tool does.
   */
  lemma RegistryIgnoresReply(backends: Backends, name: string, kw: Kwargs, reply: Value)
    requires name in Mapping
    ensures name in Registry(backends) && name in RegistryAsWritten(backends)
    ensures Registry(backends)[name](kw) == RegistryAsWritten(backends)[name](WithoutReply(kw))
    ensures Registry(backends)[name](kw) == Invoke(Mapping[name], WithoutReply(kw), backends)
    ensures Registry(backends)[name](kw["reply_to_customer" := reply]) == Registry(backends)[name](kw)
  {
    assert WithoutReply(kw["reply_to_customer" := reply]) == WithoutReply(kw);
  }

  /** The answer to an order lookup: the matching rows of the order sheet, or a not-found sentence. */
  function OrderAnswer(backends: Backends, phone: Value): string {
    match backends.orderRows(phone)
    case None => "No orders found for phone number " + Show(phone)
    case Some(table) => table
  }

  /** The order lookup answers from the order sheet; `out_queue` may be left out. */
  lemma OrderLookupReply(kw: Kwargs, backends: Backends)
    requires ExactlyKeys(kw, {"phone_number", "out_queue"}) || ExactlyKeys(kw, {"phone_number"})
    ensures Invoke(CheckOrderStatus, kw, backends) == Success(OrderAnswer(backends, kw["phone_number"]))
  {
    assert Binds(SignatureOf(CheckOrderStatus), kw);
  }

  /** `get_all_order_for_customer` is served by the order-status handler. */
  lemma OrderLookupName()
    ensures "get_all_order_for_customer" in Mapping && Mapping["get_all_order_for_customer"] == CheckOrderStatus
  {
    var name := "get_all_order_for_customer";
    assert |name| == 26;
  }

  /**
   * The order lookup with a reply, as the model is asked to produce it: the
   * corrected registry answers from the order sheet (as written it raises, by
   * ReplyBreaksRegistryAsWritten).
   */
  lemma OrderLookupWithReply(backends: Backends, kw: Kwargs)
    requires ExactlyKeys(kw, {"phone_number", "reply_to_customer", "out_queue"})
    ensures "get_all_order_for_customer" in Registry(backends)
    ensures Registry(backends)["get_all_order_for_customer"](kw) == Success(OrderAnswer(backends, kw["phone_number"]))
  {
    OrderLookupName();
    RegistryIgnoresReply(backends, "get_all_order_for_customer", kw, Null);
    OrderLookupDropsReply(kw, backends);
  }

  /** With the reply taken out, the order handler binds and answers from the order sheet. */
  lemma OrderLookupDropsReply(kw: Kwargs, backends: Backends)
    requires ExactlyKeys(kw, {"phone_number", "reply_to_customer", "out_queue"})
    ensures Invoke(CheckOrderStatus, WithoutReply(kw), backends) == Success(OrderAnswer(backends, kw["phone_number"]))
  {
    var bound := WithoutReply(kw);
    assert ExactlyKeys(bound, {"phone_number", "out_queue"}) by {
      assert bound.Keys == kw.Keys - {"reply_to_customer"};
    }
    assert bound["phone_number"] == kw["phone_number"];
    OrderLookupReply(bound, backends);
  }

  /** An order lookup for phone 9999999999 that carries the reply "Let me check that.". */
  lemma OrderLookupCounterexample(backends: Backends, queue: Value)
    ensures var kw := map["phone_number" := Str("9999999999"), "reply_to_customer" := Str("Let me check that."),
                          "out_queue" := queue];
            && RegistryAsWritten(backends)["get_all_order_for_customer"](kw) == Failure(TypeError)
            && Registry(backends)["get_all_order_for_customer"](kw).Success?
  {
    var kw := map["phone_number" := Str("9999999999"), "reply_to_customer" := Str("Let me check that."),
                  "out_queue" := queue];
    assert kw.Keys == {"phone_number", "reply_to_customer", "out_queue"};
    OrderLookupName();
    ReplyBreaksRegistryAsWritten(backends, "get_all_order_for_customer", kw);
    OrderLookupWithReply(backends, kw);
  }
}
