/**
 * The order-email route (`POST /api/order-email`): configuration check,
 * body parsing, recipient list, subject line, the call to the e-mail
 * provider and the JSON response the checkout reads.
 *
 * The environment, the provider's answer and the support address are
 * inputs: the route reads them from the process, from the network and from
 * a contact module this model does not include.
 */
module OrderEmail {
  import opened Wrappers
  import opened Types

  /** The process environment the route reads. `None` is an unset variable. */
  datatype Env = Env(resendApiKey: Option<string>, adminEmail: Option<string>, fromEmail: Option<string>)

  const DefaultFrom := "UNDERCONTROL Orders <orders@mail.undercontrol.dev>"

  const NotConfiguredError := "Email service is not configured. Please set RESEND_API_KEY or NEXT_PUBLIC_RESEND_API_KEY."
  const MalformedPayloadError := "Malformed payload."
  const ProviderError := "Unable to send email via Resend."
  const UnexpectedError := "Unexpected error while sending email."

  /** What `request.json()` makes of the body: a thrown parse error, or the payload. */
  datatype RequestBody = Unparseable | Parsed(props: OrderConfirmationProps)

  /**
   * What the provider did with the e-mail: accepted it (with the message id
   * when its data carries one), answered with an error, or threw.
   */
  datatype ProviderOutcome = Delivered(id: Option<string>) | Rejected | Threw

  /** The message handed to the provider; the template receives the payload unchanged. */
  datatype EmailRequest = EmailRequest(from: string, to: seq<string>, subject: string, props: OrderConfirmationProps)

  datatype ResponseBody = ResponseBody(success: bool, error: Option<string>, id: Option<string>)
  datatype HttpResponse = HttpResponse(status: int, body: ResponseBody)

  /** `getResendClient() !== null`: the API key is set and not empty. */
  predicate Configured(env: Env) {
    env.resendApiKey.Some? && env.resendApiKey.value != ""
  }

  /** `ADMIN_EMAIL ?? SUPPORT_EMAIL`: only an unset variable falls back. */
  function AdminAddress(env: Env, support: string): (a: string)
    ensures env.adminEmail.Some? ==> a == env.adminEmail.value
    ensures env.adminEmail.None? ==> a == support
  {
    env.adminEmail.GetOr(support)
  }

  /** `FROM_EMAIL ?? "UNDERCONTROL Orders <…>"` */
  function FromAddress(env: Env): (f: string)
    ensures env.fromEmail.Some? ==> f == env.fromEmail.value
    ensures env.fromEmail.None? ==> f == DefaultFrom
  {
    env.fromEmail.GetOr(DefaultFrom)
  }

  /**
   * `Array.from(new Set([admin]).add(customer))`: the admin address first,
   * then the customer's when it is non-empty, each address once.
   */
  function Recipients(admin: string, customer: Option<string>): (to: seq<string>)
    ensures |to| > 0 && to[0] == admin
    ensures forall x :: x in to <==> x == admin || (customer.Some? && customer.value != "" && x == customer.value)
    ensures forall i, j :: 0 <= i < j < |to| ==> to[i] != to[j]
  {
    if customer.Some? && customer.value != "" && customer.value != admin then [admin, customer.value]
    else [admin]
  }

  /** `Order ${orderId} · ${total}`: the id and the total can be read off the subject. */
  function Subject(props: OrderConfirmationProps): (s: string)
    ensures |s| == 9 + |props.orderId| + |props.total|
    ensures s[..6] == "Order " && s[6..6 + |props.orderId|] == props.orderId
    ensures s[6 + |props.orderId|..9 + |props.orderId|] == " \U{00B7} "
    ensures s[9 + |props.orderId|..] == props.total
  {
    "Order " + props.orderId + " \U{00B7} " + props.total
  }

  /** The message the route asks the provider to send for a payload. */
  function EmailFor(env: Env, support: string, props: OrderConfirmationProps): (m: EmailRequest)
    ensures m.from == FromAddress(env) && m.props == props
    ensures |m.to| > 0 && m.to[0] == AdminAddress(env, support)
    ensures props.shippingAddress.email.Some? && props.shippingAddress.email.value != "" ==>
              props.shippingAddress.email.value in m.to
    ensures |m.to| <= 2 && m.subject == Subject(props)
    ensures m.to == Recipients(AdminAddress(env, support), props.shippingAddress.email)
  {
    EmailRequest(FromAddress(env), Recipients(AdminAddress(env, support), props.shippingAddress.email), Subject(props), props)
  }

  /** The e-mail the route hands to the provider, if it gets that far. */
  function Attempt(env: Env, support: string, body: RequestBody): (m: Option<EmailRequest>)
    ensures m.Some? <==> Configured(env) && body.Parsed?
    ensures m.Some? ==> m.value == EmailFor(env, support, body.props)
  {
    if Configured(env) && body.Parsed? then Some(EmailFor(env, support, body.props)) else None
  }

  function Failure(status: int, error: string): HttpResponse {
    HttpResponse(status, ResponseBody(false, Some(error), None))
  }

  /**
   * `POST(request)`. `provider` is what the provider did with
   * `Attempt(env, support, body)`; it is not consulted when there is no
   * attempt.
   */
  function Post(env: Env, support: string, body: RequestBody, provider: ProviderOutcome): (r: HttpResponse)
    ensures r.body.success <==> Configured(env) && body.Parsed? && provider.Delivered?
    ensures r.status == 200 <==> r.body.success
    ensures r.body.success ==> r.body.id == provider.id && r.body.error.None?
    ensures !r.body.success ==> r.body.error.Some? && r.body.id.None?
    ensures !Configured(env) ==> r == Failure(500, NotConfiguredError)
    ensures Configured(env) && body.Unparseable? ==> r == Failure(400, MalformedPayloadError)
    ensures Attempt(env, support, body).Some? && provider.Rejected? ==> r == Failure(502, ProviderError)
    ensures Attempt(env, support, body).Some? && provider.Threw? ==> r == Failure(500, UnexpectedError)
  {
    if !Configured(env) then Failure(500, NotConfiguredError)
    else match body
      case Unparseable => Failure(400, MalformedPayloadError)
      case Parsed(_) =>
        match provider
        case Delivered(id) => HttpResponse(200, ResponseBody(true, None, id))
        case Rejected => Failure(502, ProviderError)
        case Threw => Failure(500, UnexpectedError)
  }

  /** The configuration check comes first: without a key even an unreadable body gets the 500. */
  lemma ConfigurationFirst(env: Env, support: string, provider: ProviderOutcome)
    requires !Configured(env)
    ensures Post(env, support, Unparseable, provider).status == 500
    ensures Attempt(env, support, Unparseable).None?
  {
  }

  /** An empty API key counts as unset, while an empty admin address is kept as it is. */
  lemma EmptyVariables(support: string, props: OrderConfirmationProps)
    ensures !Configured(Env(Some(""), None, None))
    ensures EmailFor(Env(Some("key"), Some(""), None), support, props).to[0] == ""
  {
  }
}
