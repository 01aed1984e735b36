/** The checkout screen: the 15:00 reservation countdown, the order total, the checks made
    before an order is posted, and the reading of the payment page's URLs. */
module Payment {
  import opened Wrappers
  import opened Text

  // ---------------------------------------------------------------------------------------------
  // Reservation countdown

  datatype Clock = Clock(minutes: nat, seconds: nat)

  /** The countdown shown when the screen mounts. */
  const ReservationStart := Clock(15, 0)

  function SecondsLeft(c: Clock): nat {
    c.minutes * 60 + c.seconds
  }

  predicate WellFormed(c: Clock) {
    c.seconds < 60
  }

  /** What one firing of the interval computes: the next clock, and whether it fired expiry
      (cleared the interval, raised the time-up alert and went back). */
  datatype TickResult = TickResult(next: Clock, expired: bool)

  function Tick(c: Clock): (r: TickResult)
    ensures r.expired <==> SecondsLeft(c) == 0
    ensures r.expired ==> r.next == c
    ensures !r.expired ==> SecondsLeft(r.next) + 1 == SecondsLeft(c)
    ensures WellFormed(c) ==> WellFormed(r.next)
  {
    if c.seconds > 0 then TickResult(c.(seconds := c.seconds - 1), false)
    else if c.minutes > 0 then TickResult(Clock(c.minutes - 1, 59), false)
    else TickResult(c, true)
  }

  /** The clock after `n` firings of the interval. */
  function After(c: Clock, n: nat): Clock
    decreases n
  {
    if n == 0 then c else After(Tick(c).next, n - 1)
  }

  /** Whether one of the first `n` firings fired expiry. */
  predicate FiresWithin(c: Clock, n: nat)
    decreases n
  {
    n > 0 && (Tick(c).expired || FiresWithin(Tick(c).next, n - 1))
  }

  /** From any clock, the countdown reaches 0:00 after exactly as many ticks as it has seconds
      left, without firing expiry on the way, and the next tick fires it. */
  lemma {:induction false} CountdownRunsOut(c: Clock)
    ensures After(c, SecondsLeft(c)) == Clock(0, 0)
    ensures !FiresWithin(c, SecondsLeft(c))
    ensures FiresWithin(c, SecondsLeft(c) + 1)
    decreases SecondsLeft(c)
  {
    if SecondsLeft(c) > 0 {
      CountdownRunsOut(Tick(c).next);
    }
  }

  /** A well-formed clock stays well-formed however many ticks it takes. */
  lemma {:induction false} AfterWellFormed(c: Clock, n: nat)
    requires WellFormed(c)
    ensures WellFormed(After(c, n))
    decreases n
  {
    if n > 0 {
      AfterWellFormed(Tick(c).next, n - 1);
    }
  }

  /** The reservation: 900 ticks bring 15:00 down to 0:00 with no expiry, and the 901st fires it. */
  lemma ReservationLasts900Ticks()
    ensures SecondsLeft(ReservationStart) == 900
    ensures After(ReservationStart, 900) == Clock(0, 0)
    ensures !FiresWithin(ReservationStart, 900) && FiresWithin(ReservationStart, 901)
  {
    CountdownRunsOut(ReservationStart);
  }

  // ---------------------------------------------------------------------------------------------
  // Order total

  /** One requested ticket line: a ticket id and how many of it. */
  datatype Line = Line(ticketId: int, quantity: nat)

  /** The parts of the event object the checkout reads; None is a missing property. Prices are
      whole amounts of money (the source converts them with `Number`). */
  datatype Event = Event(
    startTime: Option<int>,              // None: a start time that parses to an invalid date
    ticketTypes: Option<map<int, string>>,  // ticket id -> type name
    ticketPrices: Option<map<string, nat>>,
    ticketsTotal: Option<map<string, int>>,
    ticketsSold: Option<map<string, int>>)

  /** The price of a ticket id; an unknown id or a type without a price costs 0. */
  function UnitPrice(types: map<int, string>, prices: map<string, nat>, id: int): nat {
    if id in types && types[id] in prices then prices[types[id]] else 0
  }

  function LinesTotal(lines: seq<Line>, types: map<int, string>, prices: map<string, nat>): nat {
    if lines == [] then 0
    else lines[0].quantity * UnitPrice(types, prices, lines[0].ticketId) + LinesTotal(lines[1..], types, prices)
  }

  /** The amount shown on the screen: zero unless the tickets, prices and types are all present. */
  function TotalAmount(tickets: Option<seq<Line>>, ev: Event): nat {
    if tickets.Some? && ev.ticketPrices.Some? && ev.ticketTypes.Some?
    then LinesTotal(tickets.value, ev.ticketTypes.value, ev.ticketPrices.value)
    else 0
  }

  /** The total of a concatenation is the sum of the totals: the fold adds one line at a time. */
  lemma {:induction false} LinesTotalAppend(a: seq<Line>, b: seq<Line>, types: map<int, string>, prices: map<string, nat>)
    ensures LinesTotal(a + b, types, prices) == LinesTotal(a, types, prices) + LinesTotal(b, types, prices)
  {
    if a != [] {
      assert (a + b)[1..] == a[1..] + b;
      LinesTotalAppend(a[1..], b, types, prices);
    } else {
      assert a + b == b;
    }
  }

  /** A line whose type has no price adds nothing, wherever it stands. */
  lemma UnpricedLineAddsNothing(a: seq<Line>, l: Line, b: seq<Line>, types: map<int, string>, prices: map<string, nat>)
    requires l.ticketId !in types || types[l.ticketId] !in prices
    ensures LinesTotal(a + [l] + b, types, prices) == LinesTotal(a + b, types, prices)
  {
    LinesTotalAppend(a + [l], b, types, prices);
    LinesTotalAppend(a, [l], types, prices);
    LinesTotalAppend(a, b, types, prices);
  }

  /** The total is zero exactly when every line is empty or unpriced. */
  lemma {:induction false} LinesTotalZero(lines: seq<Line>, types: map<int, string>, prices: map<string, nat>)
    ensures LinesTotal(lines, types, prices) == 0 <==>
      forall k :: 0 <= k < |lines| ==> lines[k].quantity == 0 || UnitPrice(types, prices, lines[k].ticketId) == 0
  {
    if lines != [] {
      LinesTotalZero(lines[1..], types, prices);
      assert forall k :: 1 <= k < |lines| ==> lines[k] == lines[1..][k - 1];
    }
  }

  /** Two VIP tickets at 2,000,000 and no Standard tickets cost 4,000,000. */
  lemma TwoVipTickets()
    ensures TotalAmount(Some([Line(1, 2), Line(2, 0)]),
      Event(None, Some(map[1 := "VIP", 2 := "Standard"]), Some(map["VIP" := 2000000]), None, None)) == 4000000
  {
  }

  // ---------------------------------------------------------------------------------------------
  // Checks made before an order is posted

  function Requested(lines: seq<Line>): nat {
    if lines == [] then 0 else lines[0].quantity + Requested(lines[1..])
  }

  /** Why the payment button did nothing. `Aborted` is an uncaught TypeError (a missing
      `ticketTypes`, `ticketsTotal` or `ticketsSold` object): no alert, no state change. */
  datatype Refusal = NoTicketInfo | SaleClosed | NotEnough(available: int, typeKey: Option<string>) | Aborted

  function TypeOf(types: map<int, string>, id: int): Option<string> {
    if id in types then Some(types[id]) else None
  }

  /** `ticketsTotal[key] - (ticketsSold[key] || 0)`; None where JavaScript computes NaN, which
      no comparison accepts, so the inventory check then lets the order through. */
  function Available(total: map<string, int>, sold: map<string, int>, key: Option<string>): Option<int> {
    if key.Some? && key.value in total
    then Some(total[key.value] - (if key.value in sold then sold[key.value] else 0))
    else None
  }

  /** The guard chain of the payment handler, in the source's order. */
  function CheckOrder(eventId: Option<int>, tickets: Option<seq<Line>>, ev: Event, now: int): (r: Option<Refusal>)
    ensures r == None ==> eventId.Some? && eventId.value != 0 && tickets.Some? && tickets.value != []
    ensures r == None ==> ev.startTime.None? || now <= ev.startTime.value
    ensures r.Some? && r.value.NotEnough? ==>
      tickets.Some? && tickets.value != [] && Requested(tickets.value) > r.value.available
  {
    if eventId.None? || eventId.value == 0 || tickets.None? || tickets.value == [] then Some(NoTicketInfo)
    else if ev.startTime.Some? && now > ev.startTime.value then Some(SaleClosed)
    else if ev.ticketTypes.None? || ev.ticketsTotal.None? || ev.ticketsSold.None? then Some(Aborted)
    else
      var key := TypeOf(ev.ticketTypes.value, tickets.value[0].ticketId);
      var available := Available(ev.ticketsTotal.value, ev.ticketsSold.value, key);
      if available.Some? && Requested(tickets.value) > available.value then Some(NotEnough(available.value, key))
      else None
  }

  /** Once the identity and sale-window checks pass on complete data, the order is refused
      exactly when more tickets are requested, over all lines, than remain of the first line's type. */
  lemma InventoryCheck(eventId: int, tickets: seq<Line>, ev: Event, now: int)
    requires eventId != 0 && tickets != []
    requires ev.startTime.None? || now <= ev.startTime.value
    requires ev.ticketTypes.Some? && ev.ticketsTotal.Some? && ev.ticketsSold.Some?
    ensures var key := TypeOf(ev.ticketTypes.value, tickets[0].ticketId);
            var left := Available(ev.ticketsTotal.value, ev.ticketsSold.value, key);
            CheckOrder(Some(eventId), Some(tickets), ev, now).Some? <==> left.Some? && Requested(tickets) > left.value
  {
  }

  /** Only the first line's type and the overall count decide the inventory check: two orders
      that agree on those are treated alike, whatever their other lines are. */
  lemma OnlyFirstLineTypeIsChecked(eventId: Option<int>, t1: seq<Line>, t2: seq<Line>, ev: Event, now: int)
    requires t1 != [] && t2 != [] && t1[0].ticketId == t2[0].ticketId
    requires Requested(t1) == Requested(t2)
    ensures CheckOrder(eventId, Some(t1), ev, now) == CheckOrder(eventId, Some(t2), ev, now)
  {
  }

  /** A second line of a sold-out type passes when the first line's type has stock. */
  lemma SecondTypeStockIgnored()
    ensures CheckOrder(Some(7), Some([Line(1, 1), Line(2, 3)]),
      Event(None, Some(map[1 := "VIP", 2 := "Standard"]), None,
            Some(map["VIP" := 10, "Standard" := 2]), Some(map["Standard" := 2])), 0) == None
  {
  }

  /** The requested count of a concatenation is the sum of the counts. */
  lemma {:induction false} RequestedAppend(a: seq<Line>, b: seq<Line>)
    ensures Requested(a + b) == Requested(a) + Requested(b)
  {
    if a != [] {
      assert (a + b)[1..] == a[1..] + b;
      RequestedAppend(a[1..], b);
    } else {
      assert a + b == b;
    }
  }

  // ---------------------------------------------------------------------------------------------
  // The order request and its response

  const ReturnUrl := "https://url.ngrok-free.app/success"
  const CancelUrl := "https://url.ngrok-free.app/cancel"

  datatype OrderBody = OrderBody(eventId: int, tickets: seq<Line>, discountCode: Option<string>,
                                 returnUrl: string, cancelUrl: string)

  /** The JSON body posted to the orders endpoint; the discount code travels only when one was
      typed, and no discount is computed here. */
  function BuildBody(eventId: int, tickets: seq<Line>, code: string): (b: OrderBody)
    ensures b.eventId == eventId && b.tickets == tickets
    ensures b.discountCode.Some? <==> code != ""
    ensures b.discountCode.Some? ==> b.discountCode.value == code
    ensures b.returnUrl == ReturnUrl && b.cancelUrl == CancelUrl
  {
    OrderBody(eventId, tickets, if code == "" then None else Some(code), ReturnUrl, CancelUrl)
  }

  /** The response to the order request: an error status with the server's `message`, or a
      success whose `data.checkoutUrl` may be missing. */
  datatype Response = ServerError(message: Option<string>) | Created(checkoutUrl: Option<string>)

  /** The payment page to open, if the response names one. */
  function PaymentPage(resp: Response): Option<string> {
    if resp.Created? && resp.checkoutUrl.Some? && resp.checkoutUrl.value != "" then resp.checkoutUrl else None
  }

  /** The message of the error the handler throws when there is no payment page. */
  function FailureMessage(resp: Response): string {
    match resp
    case ServerError(m) => if m.Some? && m.value != "" then m.value else "Không thể tạo đơn hàng"
    case Created(_) => "No checkout URL provided"
  }

  datatype Alert =
    | MissingTicketInfo | SaleEnded | OnlyLeft(available: int, typeKey: Option<string>)
    | LoginRequired | RegularSaleNotStarted | OrderFailed(message: string)
    | PaymentCompleted | PaymentCancelled | TimeUp

  const RegularSaleNotStartedText := "Ticket sale for Thường has not started"

  /** The alert raised in the handler's catch block. */
  function FailureAlert(message: string): (a: Alert)
    ensures a == RegularSaleNotStarted <==> Contains(message, RegularSaleNotStartedText)
    ensures a != RegularSaleNotStarted ==> a == OrderFailed(message)
  {
    if Contains(message, RegularSaleNotStartedText) then RegularSaleNotStarted else OrderFailed(message)
  }

  function RefusalAlert(r: Refusal): Option<Alert> {
    match r
    case NoTicketInfo => Some(MissingTicketInfo)
    case SaleClosed => Some(SaleEnded)
    case NotEnough(n, key) => Some(OnlyLeft(n, key))
    case Aborted => None
  }

  // ---------------------------------------------------------------------------------------------
  // The payment page's navigation events

  datatype UrlKind = PaidUrl | CancelledUrl | OtherUrl

  function ClassifyUrl(url: string): (k: UrlKind)
    ensures k == PaidUrl <==> Contains(url, ReturnUrl)
    ensures k == CancelledUrl <==> !Contains(url, ReturnUrl) && Contains(url, CancelUrl)
  {
    if Contains(url, ReturnUrl) then PaidUrl
    else if Contains(url, CancelUrl) then CancelledUrl
    else OtherUrl
  }

  /** The gateway's redirect back to the return URL, with its query string, counts as paid. */
  lemma ReturnWithQueryIsPaid(query: string)
    ensures ClassifyUrl(ReturnUrl + query) == PaidUrl
  {
    assert OccursAt(ReturnUrl + query, ReturnUrl, 0);
  }

  /** The payment page itself, or any URL mentioning neither sentinel, changes nothing. */
  lemma GatewayPageIsIgnored()
    ensures ClassifyUrl("https://pay.payos.vn/web/abc") == OtherUrl
  {
    var url := "https://pay.payos.vn/web/abc";
    assert !Contains(url, ReturnUrl);
    assert !Contains(url, CancelUrl);
  }

  // ---------------------------------------------------------------------------------------------
  // The screen's state

  function HasToken(token: Option<string>): bool {
    token.Some? && token.value != ""
  }

  class Checkout {
    var timeLeft: Clock
    var loading: bool
    var checkoutUrl: Option<string>

    constructor ()
      ensures timeLeft == ReservationStart && !loading && checkoutUrl == None
    {
      timeLeft := ReservationStart;
      loading := false;
      checkoutUrl := None;
    }

    /** One firing of the one-second interval. */
    method OnTimerTick() returns (expired: bool, alert: Option<Alert>)
      modifies this`timeLeft
      ensures timeLeft == Tick(old(timeLeft)).next
      ensures expired <==> SecondsLeft(old(timeLeft)) == 0
      ensures alert == if expired then Some(TimeUp) else None
    {
      var r := Tick(timeLeft);
      timeLeft := r.next;
      expired := r.expired;
      alert := if expired then Some(TimeUp) else None;
    }

    /** The payment button. `token` is the stored token and `response` the answer of the orders
        endpoint; `sent` is the body posted, and `busy` the loading flag while it is awaited. */
    method HandlePayment(eventId: Option<int>, tickets: Option<seq<Line>>, ev: Event, now: int,
                         discountCode: string, token: Option<string>, response: Response)
      returns (sent: Option<OrderBody>, alert: Option<Alert>, busy: bool)
      modifies this`loading, this`checkoutUrl
      ensures var refused := CheckOrder(eventId, tickets, ev, now);
        refused.Some? ==>
          sent == None && !busy && alert == RefusalAlert(refused.value) &&
          loading == old(loading) && checkoutUrl == old(checkoutUrl)
      ensures CheckOrder(eventId, tickets, ev, now) == None && !HasToken(token) ==>
          sent == None && busy && alert == Some(LoginRequired) &&
          !loading && checkoutUrl == old(checkoutUrl)
      ensures CheckOrder(eventId, tickets, ev, now) == None && HasToken(token) ==>
          sent == Some(BuildBody(eventId.value, tickets.value, discountCode)) && busy &&
          (PaymentPage(response).Some? ==> alert == None && loading && checkoutUrl == PaymentPage(response)) &&
          (PaymentPage(response).None? ==>
             alert == Some(FailureAlert(FailureMessage(response))) && !loading && checkoutUrl == old(checkoutUrl))
    {
      sent, alert, busy := None, None, false;
      var refused := CheckOrder(eventId, tickets, ev, now);
      if refused.Some? {
        alert := RefusalAlert(refused.value);
        return;
      }
      loading := true;
      busy := loading;
      if !HasToken(token) {
        alert := Some(LoginRequired);
        loading := false;
        return;
      }
      sent := Some(BuildBody(eventId.value, tickets.value, discountCode));
      var page := PaymentPage(response);
      if page.Some? {
        checkoutUrl := page;
      } else {
        alert := Some(FailureAlert(FailureMessage(response)));
        loading := false;
      }
    }

    /** A press on the payment button, which is disabled while `loading` is set: a press then
        does nothing, so at most one order request is in flight. */
    method OnPayPress(eventId: Option<int>, tickets: Option<seq<Line>>, ev: Event, now: int,
                      discountCode: string, token: Option<string>, response: Response)
      returns (sent: Option<OrderBody>, alert: Option<Alert>, busy: bool)
      modifies this`loading, this`checkoutUrl
      ensures old(loading) ==>
        sent == None && alert == None && busy && loading && checkoutUrl == old(checkoutUrl)
      ensures var refused := CheckOrder(eventId, tickets, ev, now);
        !old(loading) && refused.Some? ==>
          sent == None && !busy && alert == RefusalAlert(refused.value) &&
          !loading && checkoutUrl == old(checkoutUrl)
      ensures !old(loading) && CheckOrder(eventId, tickets, ev, now) == None && !HasToken(token) ==>
          sent == None && busy && alert == Some(LoginRequired) &&
          !loading && checkoutUrl == old(checkoutUrl)
      ensures !old(loading) && CheckOrder(eventId, tickets, ev, now) == None && HasToken(token) ==>
          sent == Some(BuildBody(eventId.value, tickets.value, discountCode)) && busy &&
          (PaymentPage(response).Some? ==> alert == None && loading && checkoutUrl == PaymentPage(response)) &&
          (PaymentPage(response).None? ==>
             alert == Some(FailureAlert(FailureMessage(response))) && !loading && checkoutUrl == old(checkoutUrl))
    {
      if loading {
        sent, alert, busy := None, None, true;
        return;
      }
      sent, alert, busy := HandlePayment(eventId, tickets, ev, now, discountCode, token, response);
    }

    /** A navigation event of the embedded payment page. */
    method HandleWebViewNavigation(url: string) returns (kind: UrlKind, alert: Option<Alert>, toTickets: bool)
      modifies this`loading, this`checkoutUrl
      ensures kind == ClassifyUrl(url)
      ensures kind == PaidUrl ==>
        checkoutUrl == None && loading == old(loading) && alert == Some(PaymentCompleted) && toTickets
      ensures kind == CancelledUrl ==>
        checkoutUrl == None && !loading && alert == Some(PaymentCancelled) && !toTickets
      ensures kind == OtherUrl ==>
        checkoutUrl == old(checkoutUrl) && loading == old(loading) && alert == None && !toTickets
    {
      kind := ClassifyUrl(url);
      alert, toTickets := None, false;
      if kind == PaidUrl {
        checkoutUrl := None;
        alert := Some(PaymentCompleted);
        toTickets := true;
      } else if kind == CancelledUrl {
        checkoutUrl := None;
        alert := Some(PaymentCancelled);
        loading := false;
      }
    }

    /** The back arrow above the payment page. */
    method CloseWebView()
      modifies this`loading, this`checkoutUrl
      ensures checkoutUrl == None && !loading
    {
      checkoutUrl := None;
      loading := false;
    }
  }
}
