/** The reservation tools that the session manager invokes on a tool-use
    request: reservation lookup, cancellation with a tiered refund, and the
    dispatcher that picks a tool by name (dist/hotel-confirmation.js).
    Money is in whole cents; today's date and the random confirmation number
    are parameters. */
module HotelConfirmation {
  import opened Common

  /** A field value of a parsed JSON tool input. */
  datatype Value = Str(s: string) | Bool(b: bool) | Num(n: int) | Null

  type Params = map<string, Value>

  /** A parsed tool input: `null` or an object. A JSON value that is neither
      behaves like an object without the fields the tools read. */
  datatype ToolInput = JNull | JObject(fields: Params)

  datatype Reservation = Reservation(
    reservationId: string,
    name: string,
    checkInDate: string,
    checkOutDate: string,
    hotelName: string,
    roomType: string,
    totalCostCents: nat,
    isPaid: bool,
    createdAt: string)

  datatype CancellationPolicy = CancellationPolicy(
    reservationId: string,
    freeCancellationUntil: Option<string>,
    partialRefundUntil: Option<string>,
    partialRefundPercentage: nat,
    noRefundAfter: string,
    additionalNotes: Option<string>)

  datatype ReservationWithPolicy = ReservationWithPolicy(reservation: Reservation, cancellationPolicy: Option<CancellationPolicy>)

  datatype CancellationResult = CancellationResult(
    success: bool,
    reservationId: Option<Value>,
    cancellationDate: string,
    refundAmountCents: nat,
    refundPercentage: nat,
    confirmationCode: string,
    message: string)

  /** A tool implementation threw (a property read on `null` or `undefined`). */
  datatype Thrown = TypeError

  const MockReservations: seq<Reservation> := [
    Reservation("RES-12345", "Angela Park", "2025-04-12", "2025-04-15", "Seaview Hotel", "Deluxe Ocean View", 75000, true, "2024-12-15"),
    Reservation("RES-23456", "Don Smith", "2025-05-15", "2025-05-20", "Mountain Lodge", "Standard King", 85000, true, "2024-11-30"),
    Reservation("RES-34567", "Maria Rodriguez", "2025-06-10", "2025-06-14", "City Central Hotel", "Executive Suite", 120000, true, "2024-12-05")
  ]

  const MockCancellationPolicies: map<string, CancellationPolicy> := map[
    "RES-12345" := CancellationPolicy("RES-12345", Some("2025-04-05"), Some("2025-04-10"), 50, "2025-04-10", None),
    "RES-23456" := CancellationPolicy("RES-23456", Some("2025-05-10"), Some("2025-05-14"), 30, "2025-01-14",
                                      Some("Non-refundable deposit of $100 applies to all cancellations")),
    "RES-34567" := CancellationPolicy("RES-34567", None, Some("2025-06-03"), 25, "2025-06-03",
                                      Some("Special event rate with limited cancellation options"))
  ]

  /** What a tool call reads besides its request: the reservation and
      policy tables, today's date and the random confirmation number. */
  datatype ToolEnv = ToolEnv(reservations: seq<Reservation>, policies: map<string, CancellationPolicy>,
                             today: string, codeNumber: nat)

  /** The environment of the shipped tools: the mock tables. */
  function MockEnv(today: string, codeNumber: nat): ToolEnv {
    ToolEnv(MockReservations, MockCancellationPolicies, today, codeNumber)
  }

  /** JavaScript truthiness of an optional field value. */
  predicate TruthyValue(v: Option<Value>) {
    match v
    case None => false
    case Some(Str(s)) => s != ""
    case Some(Bool(b)) => b
    case Some(Num(n)) => n != 0
    case Some(Null) => false
  }

  function Field(p: Params, key: string): Option<Value> {
    if key in p then Some(p[key]) else None
  }

  /** Code-unit order of JavaScript's `<=` on strings. */
  predicate LexLe(a: string, b: string) {
    if a == [] then true
    else if b == [] then false
    else if a[0] != b[0] then a[0] < b[0]
    else LexLe(a[1..], b[1..])
  }

  /** Index of the first reservation whose name equals `name` ignoring case
      and whose check-in date equals `checkIn` exactly. */
  function FindByNameAndDate(table: seq<Reservation>, name: string, checkIn: Option<Value>): (r: Option<nat>)
    ensures r.Some? ==> (r.value < |table|
      && Lower(table[r.value].name) == Lower(name)
      && checkIn == Some(Str(table[r.value].checkInDate)))
    ensures r.Some? ==> forall j :: 0 <= j < r.value ==>
      !(Lower(table[j].name) == Lower(name) && checkIn == Some(Str(table[j].checkInDate)))
    ensures r.None? ==> forall j :: 0 <= j < |table| ==>
      !(Lower(table[j].name) == Lower(name) && checkIn == Some(Str(table[j].checkInDate)))
  {
    if table == [] then None
    else if checkIn == Some(Str(table[0].checkInDate)) && Lower(table[0].name) == Lower(name) then Some(0)
    else match FindByNameAndDate(table[1..], name, checkIn)
      case None => None
      case Some(k) => Some(k + 1)
  }

  /** Index of the first reservation with the given id. */
  function FindById(table: seq<Reservation>, id: Option<Value>): (r: Option<nat>)
    ensures r.Some? ==> r.value < |table| && id == Some(Str(table[r.value].reservationId))
    ensures r.Some? ==> forall j :: 0 <= j < r.value ==> id != Some(Str(table[j].reservationId))
    ensures r.None? ==> forall j :: 0 <= j < |table| ==> id != Some(Str(table[j].reservationId))
  {
    if table == [] then None
    else if id == Some(Str(table[0].reservationId)) then Some(0)
    else match FindById(table[1..], id)
      case None => None
      case Some(k) => Some(k + 1)
  }

  /** The policy attached to a found reservation:
      `reservationId ? policies[reservationId] : null`, undefined when the
      id has no policy. */
  function PolicyOf(policies: map<string, CancellationPolicy>, id: string): Option<CancellationPolicy> {
    if id != "" && id in policies then Some(policies[id]) else None
  }

  /** `getReservation`: the first reservation matching the name (ignoring
      case) and the exact check-in date, with its cancellation policy
      attached; `None` when nothing matches. Reading `name` of a `null`
      input, or comparing against a `name` that is not a string, throws. */
  function GetReservation(table: seq<Reservation>, policies: map<string, CancellationPolicy>, params: ToolInput)
    : (r: Result<Option<ReservationWithPolicy>, Thrown>)
    ensures params.JNull? ==> r.Err?
    ensures params.JObject? && table != [] && !(Field(params.fields, "name").Some? && Field(params.fields, "name").value.Str?) ==> r.Err?
    ensures params.JObject? && table == [] ==> r == Ok(None)
    ensures params.JObject? && Field(params.fields, "name").Some? && Field(params.fields, "name").value.Str? ==>
      var i := FindByNameAndDate(table, Field(params.fields, "name").value.s, Field(params.fields, "checkInDate"));
      (r == Ok(None) <==> i.None?)
      && (i.Some? ==> r == Ok(Some(ReservationWithPolicy(table[i.value], PolicyOf(policies, table[i.value].reservationId)))))
  {
    match params
    case JNull => Err(TypeError)
    case JObject(f) =>
      if table == [] then Ok(None)
      else if !(Field(f, "name").Some? && Field(f, "name").value.Str?) then Err(TypeError)
      else
        match FindByNameAndDate(table, Field(f, "name").value.s, Field(f, "checkInDate"))
        case None => Ok(None)
        case Some(i) =>
          Ok(Some(ReservationWithPolicy(table[i], PolicyOf(policies, table[i].reservationId))))
  }

  /** The refund tier a policy grants on `today`: (percentage, amount in cents, message). */
  datatype Refund = Refund(percentage: nat, amountCents: nat, message: string)

  /** Refund tiers: full refund up to the free-cancellation date, the
      policy's percentage up to the partial-refund date, nothing after.
      Dates are ISO strings compared as strings. */
  function RefundFor(policy: CancellationPolicy, totalCostCents: nat, today: string): (r: Refund)
    ensures Truthy(policy.freeCancellationUntil) && LexLe(today, policy.freeCancellationUntil.value)
      ==> r.percentage == 100 && r.amountCents == totalCostCents
    ensures !(Truthy(policy.freeCancellationUntil) && LexLe(today, policy.freeCancellationUntil.value))
      && Truthy(policy.partialRefundUntil) && LexLe(today, policy.partialRefundUntil.value)
      ==> (r.percentage == policy.partialRefundPercentage
        && r.amountCents == PercentOf(totalCostCents, policy.partialRefundPercentage))
    ensures !(Truthy(policy.freeCancellationUntil) && LexLe(today, policy.freeCancellationUntil.value))
      && !(Truthy(policy.partialRefundUntil) && LexLe(today, policy.partialRefundUntil.value))
      ==> r.percentage == 0 && r.amountCents == 0
  {
    if Truthy(policy.freeCancellationUntil) && LexLe(today, policy.freeCancellationUntil.value) then
      Refund(100, totalCostCents, "Full refund will be processed.")
    else if Truthy(policy.partialRefundUntil) && LexLe(today, policy.partialRefundUntil.value) then
      var pct := policy.partialRefundPercentage;
      var amount := PercentOf(totalCostCents, pct);
      Refund(pct, amount, "Partial refund of " + NatToString(pct) + "% (" + FormatCents(amount) + ") will be processed.")
    else
      Refund(0, 0, "No refund is applicable based on the cancellation date and policy.")
  }

  /** `pct` percent of `total`, rounded down to a whole cent. */
  function PercentOf(total: nat, pct: nat): nat {
    var product: nat := total * pct;
    product / 100
  }

  /** `amount.toFixed(2)` for an amount held in cents. */
  function FormatCents(cents: nat): string {
    NatToString(cents / 100) + "." + PadStartZeros(NatToString(cents % 100), 2)
  }

  /** The refund never exceeds the cost and its percentage is one of the
      three tiers, as long as the policy's own percentage is at most 100. */
  lemma RefundBounded(policy: CancellationPolicy, totalCostCents: nat, today: string)
    requires policy.partialRefundPercentage <= 100
    ensures 0 <= RefundFor(policy, totalCostCents, today).amountCents <= totalCostCents
    ensures RefundFor(policy, totalCostCents, today).percentage in {0, policy.partialRefundPercentage, 100}
  {
    PercentOfAtMost(totalCostCents, policy.partialRefundPercentage);
  }

  /** A percentage of at most 100 of a sum, rounded down, is at most the sum. */
  lemma PercentOfAtMost(total: nat, pct: nat)
    requires pct <= 100
    ensures PercentOf(total, pct) <= total
  {
    assert total * pct <= total * 100 by {
      assert total * pct + total * (100 - pct) == total * 100;
    }
  }

  /** `"CNX-"` followed by the random number padded to six digits. */
  function ConfirmationCode(codeNumber: nat): string {
    "CNX-" + PadStartZeros(NatToString(codeNumber), 6)
  }

  /** The tier message followed by the policy's notes when it has any. */
  function RefundMessage(refund: Refund, policy: CancellationPolicy): (m: string)
    ensures Truthy(policy.additionalNotes) ==> m == refund.message + " " + policy.additionalNotes.value + "."
    ensures !Truthy(policy.additionalNotes) ==> m == refund.message
  {
    if Truthy(policy.additionalNotes) then refund.message + " " + policy.additionalNotes.value + "." else refund.message
  }

  function Declined(id: Option<Value>, today: string, message: string): CancellationResult {
    CancellationResult(false, id, today, 0, 0, "", message)
  }

  /** `cancelReservation`: declines unless the cancellation is confirmed,
      the id is known and a policy exists; otherwise succeeds with the
      refund of the tier `today` falls in. */
  function CancelReservation(table: seq<Reservation>, policies: map<string, CancellationPolicy>, params: ToolInput,
                             today: string, codeNumber: nat): (r: Result<CancellationResult, Thrown>)
    ensures params.JNull? <==> r.Err?
    ensures r.Ok? ==> r.value.cancellationDate == today
    ensures r.Ok? && !TruthyValue(Field(params.fields, "confirmCancellation"))
      ==> !r.value.success && r.value.refundAmountCents == 0 && r.value.refundPercentage == 0
    ensures r.Ok? && FindById(table, Field(params.fields, "reservationId")).None?
      ==> !r.value.success && r.value.refundAmountCents == 0 && r.value.refundPercentage == 0
    ensures r.Ok? && r.value.success <==>
      params.JObject? && TruthyValue(Field(params.fields, "confirmCancellation"))
      && FindById(table, Field(params.fields, "reservationId")).Some?
      && table[FindById(table, Field(params.fields, "reservationId")).value].reservationId in policies
    ensures r.Ok? && r.value.success ==>
      var res := table[FindById(table, Field(params.fields, "reservationId")).value];
      var refund := RefundFor(policies[res.reservationId], res.totalCostCents, today);
      r.value.refundAmountCents == refund.amountCents && r.value.refundPercentage == refund.percentage
      && r.value.confirmationCode == ConfirmationCode(codeNumber)
      && r.value.message == "Cancellation successful. Confirmation code: " + ConfirmationCode(codeNumber) + ". "
                            + RefundMessage(refund, policies[res.reservationId])
  {
    match params
    case JNull => Err(TypeError)
    case JObject(f) =>
      var id := Field(f, "reservationId");
      if !TruthyValue(Field(f, "confirmCancellation")) then
        Ok(Declined(id, today, "Cancellation not confirmed. Please confirm if you wish to cancel."))
      else
        match FindById(table, id)
        case None => Ok(Declined(id, today, "Reservation ID not found."))
        case Some(i) =>
          var res := table[i];
          if res.reservationId !in policies then
            Ok(Declined(id, today, "Cancellation policy not found for this reservation."))
          else
            var policy := policies[res.reservationId];
            var refund := RefundFor(policy, res.totalCostCents, today);
            var code := ConfirmationCode(codeNumber);
            Ok(CancellationResult(true, id, today, refund.amountCents, refund.percentage, code,
              "Cancellation successful. Confirmation code: " + code + ". " + RefundMessage(refund, policy)))
  }

  /** The `content` of a tool-use request: absent, a JSON string (with the
      outcome of parsing it), or an already-parsed value. */
  datatype ToolContent = Missing | Text(parsed: Option<ToolInput>) | Object(value: ToolInput)

  datatype ToolUse = ToolUse(toolUseId: string, toolName: string, content: ToolContent)

  datatype ToolResult =
    | ReservationDetails(details: ReservationWithPolicy)
    | NoMatchingReservation
    | Cancellation(cancellation: CancellationResult)

  /** The object `handleToolCall` returns: `status: "success"` with a
      result, or `status: "error"` for one of three reasons. */
  datatype ToolResponse =
    | Success(result: ToolResult)
    | InvalidInput
    | UnsupportedTool(name: string)
    | ExecutionError

  function Status(r: ToolResponse): string {
    if r.Success? then "success" else "error"
  }

  /** The `message` of an error response whose text does not depend on the
      JavaScript engine. */
  function ErrorMessage(r: ToolResponse): Option<string> {
    match r
    case InvalidInput => Some("Invalid input format for tool.")
    case UnsupportedTool(name) => Some("Tool " + name + " not supported.")
    case _ => None
  }

  /** `handleToolCall` over the read-only mock tables: parses the input,
      dispatches on the exact tool name, and turns a thrown tool error into
      an error response. A `null` result becomes a default message. */
  function HandleToolCall(toolUse: ToolUse, env: ToolEnv): (r: ToolResponse)
    ensures toolUse.content.Missing? || toolUse.content == Text(None) ==> r == InvalidInput
    ensures InputOf(toolUse.content).Some?
      && toolUse.toolName != "getReservationTool" && toolUse.toolName != "cancelReservationTool"
      ==> r == UnsupportedTool(toolUse.toolName)
    ensures r.Success? ==> toolUse.toolName in {"getReservationTool", "cancelReservationTool"}
    ensures r.Success? && toolUse.toolName == "cancelReservationTool" ==> r.result.Cancellation?
    ensures r.Success? && toolUse.toolName == "getReservationTool" ==> !r.result.Cancellation?
  {
    match InputOf(toolUse.content)
    case None => InvalidInput
    case Some(input) =>
      if toolUse.toolName == "getReservationTool" then
        match GetReservation(env.reservations, env.policies, input)
        case Err(_) => ExecutionError
        case Ok(None) => Success(NoMatchingReservation)
        case Ok(Some(details)) => Success(ReservationDetails(details))
      else if toolUse.toolName == "cancelReservationTool" then
        match CancelReservation(env.reservations, env.policies, input, env.today, env.codeNumber)
        case Err(_) => ExecutionError
        case Ok(c) => Success(Cancellation(c))
      else UnsupportedTool(toolUse.toolName)
  }

  /** The tool input `handleToolCall` works on, or `None` when the content
      is missing or is a string that does not parse. */
  function InputOf(content: ToolContent): Option<ToolInput> {
    match content
    case Missing => None
    case Text(parsed) => parsed
    case Object(value) => Some(value)
  }

  /** Tool names are matched with their exact case. */
  lemma ToolNameIsCaseSensitive(input: ToolInput, env: ToolEnv)
    ensures HandleToolCall(ToolUse("", "GetReservationTool", Object(input)), env)
         == UnsupportedTool("GetReservationTool")
    ensures Status(HandleToolCall(ToolUse("", "getreservationtool", Object(input)), env)) == "error"
  {
  }

  /** For a parsed input, each tool's outcome decides the response: a
      thrown error is an execution error, a `null` lookup is the default
      message (so a guest with no booking still gets a success), and any
      other result is passed on as a success. */
  lemma HandleToolCallOutcomes(toolUse: ToolUse, env: ToolEnv)
    requires InputOf(toolUse.content).Some?
    ensures var input := InputOf(toolUse.content).value;
      var r := HandleToolCall(toolUse, env);
      var g := GetReservation(env.reservations, env.policies, input);
      var c := CancelReservation(env.reservations, env.policies, input, env.today, env.codeNumber);
      (toolUse.toolName == "getReservationTool" ==>
         (r == ExecutionError <==> g.Err?)
         && (r == Success(NoMatchingReservation) <==> g == Ok(None))
         && (g.Ok? && g.value.Some? ==> r == Success(ReservationDetails(g.value.value))))
      && (toolUse.toolName == "cancelReservationTool" ==>
         (r == ExecutionError <==> c.Err?)
         && (c.Ok? ==> r == Success(Cancellation(c.value))))
  {
  }
}
