/**
 * The lead-submission API route. POST validates a submitted form and builds the lead record
 * handed to the database; GET turns the query string into the filter and the row limit of the
 * leads query. The database itself, the generated lead id and the rows it returns are not part
 * of this model: POST ends with the record to insert, GET with the query to run.
 */
module Submissions {
  import opened Wrappers
  import opened Strings
  import opened Json
  import opened JsNumbers

  /** The request headers the route reads; `headers.get` gives `null` (None) when one is absent. */
  datatype Headers = Headers(forwardedFor: Option<string>, realIp: Option<string>,
                             userAgent: Option<string>, referer: Option<string>)

  /** A query string as its name/value pairs, in order. */
  type Query = seq<(string, string)>

  /** `searchParams.get(name)`: the value of the first pair with that name, `null` when there is none. */
  function QueryGet(q: Query, name: string): (r: Option<string>)
    ensures r.None? <==> forall i :: 0 <= i < |q| ==> q[i].0 != name
    ensures r.Some? ==> exists i :: 0 <= i < |q| && q[i] == (name, r.value) && forall j :: 0 <= j < i ==> q[j].0 != name
    decreases |q|
  {
    if |q| == 0 then None
    else if q[0].0 == name then Some(q[0].1)
    else
      var r := QueryGet(q[1..], name);
      if r.Some? then
        var i :| 0 <= i < |q[1..]| && q[1..][i] == (name, r.value) && forall j :: 0 <= j < i ==> q[1..][j].0 != name;
        assert q[i + 1] == q[1..][i];
        assert forall j :: 1 <= j < i + 1 ==> q[j] == q[1..][j - 1];
        r
      else
        assert forall i :: 1 <= i < |q| ==> q[i] == q[1..][i - 1];
        r
  }

  /** The record the route inserts into the leads table. */
  datatype NewLead = NewLead(
    leadType: Json, domain: Json, email: Json,
    firstName: Json, lastName: Json, phone: Json, company: Json, message: Json, metadata: Json,
    ipAddress: string, userAgent: string, referrer: string,
    utmSource: Option<string>, utmMedium: Option<string>, utmCampaign: Option<string>,
    status: string)

  /** The answer to a POST: 400 for a form without its required fields, the lead to insert, or
   *  500 when the handler threw. */
  datatype PostOutcome = BadRequest | Insert(lead: NewLead) | ServerError

  /** `x || null` */
  function OrNull(x: Option<Json>): (r: Json)
    ensures TruthyOpt(x) ==> r == x.value
    ensures !TruthyOpt(x) ==> r == JNull
  {
    Or(x, Some(JNull)).value
  }

  /** The client address: `x-forwarded-for`, else `x-real-ip`, else `unknown`. */
  function ClientAddress(h: Headers): string {
    StrOr(h.forwardedFor, StrOr(h.realIp, "unknown"))
  }

  /** The lead built from a valid form. */
  function LeadOf(body: Json, h: Headers, q: Query): NewLead
    requires HasRequiredFields(body)
  {
    var data := Prop(body, "data");
    NewLead(
      Prop(body, "type").value, Prop(body, "domain").value, OptProp(data, "email").value,
      OrNull(OptProp(data, "firstName")), OrNull(OptProp(data, "lastName")),
      OrNull(OptProp(data, "phone")), OrNull(OptProp(data, "company")),
      OrNull(OptProp(data, "message")), OrNull(OptProp(data, "metadata")),
      ClientAddress(h), StrOr(h.userAgent, ""), StrOr(h.referer, ""),
      QueryGet(q, "utm_source"), QueryGet(q, "utm_medium"), QueryGet(q, "utm_campaign"),
      "new")
  }

  /** The form carries a truthy `type`, `domain` and `data.email`. */
  predicate HasRequiredFields(body: Json) {
    TruthyOpt(Prop(body, "type")) && TruthyOpt(Prop(body, "domain"))
    && TruthyOpt(OptProp(Prop(body, "data"), "email"))
  }

  /** `POST(request)` for the parsed request body (None when it is not JSON, which throws), the
   *  headers and the query string of the request URL. A `null` body throws on `body.type`. */
  function Post(body: Option<Json>, h: Headers, q: Query): (r: PostOutcome)
    ensures r.Insert? ==> body.Some? && HasRequiredFields(body.value)
  {
    if body.None? || body.value == JNull then ServerError
    else if !HasRequiredFields(body.value) then BadRequest
    else Insert(LeadOf(body.value, h, q))
  }

  /** POST answers 400 exactly for a non-null JSON body that misses `type`, `domain` or
   *  `data.email` (or has a falsy one), and 500 exactly when the body is not JSON or is `null`. */
  lemma PostOutcomes(body: Option<Json>, h: Headers, q: Query)
    ensures Post(body, h, q) == BadRequest
      <==> body.Some? && body.value != JNull && !HasRequiredFields(body.value)
    ensures Post(body, h, q) == ServerError <==> body.None? || body.value == JNull
  {
  }

  /** A lead copies the required fields, has status `new`, and keeps the UTM parameters of the
   *  URL (`null` when absent). */
  lemma LeadFields(body: Option<Json>, h: Headers, q: Query)
    requires Post(body, h, q).Insert?
    ensures var lead := Post(body, h, q).lead;
      Some(lead.leadType) == Prop(body.value, "type") && Truthy(lead.leadType)
      && Some(lead.domain) == Prop(body.value, "domain") && Truthy(lead.domain)
      && Some(lead.email) == OptProp(Prop(body.value, "data"), "email") && Truthy(lead.email)
      && lead.status == "new"
      && lead.utmSource == QueryGet(q, "utm_source")
      && lead.utmMedium == QueryGet(q, "utm_medium")
      && lead.utmCampaign == QueryGet(q, "utm_campaign")
  {
  }

  /** An optional form field is stored as given when truthy, and as `null` otherwise. */
  lemma OptionalFieldsNullWhenFalsy(body: Option<Json>, h: Headers, q: Query)
    requires Post(body, h, q).Insert?
    ensures var lead := Post(body, h, q).lead;
      var data := Prop(body.value, "data");
      (lead.firstName == if TruthyOpt(OptProp(data, "firstName")) then OptProp(data, "firstName").value else JNull)
      && (lead.lastName == if TruthyOpt(OptProp(data, "lastName")) then OptProp(data, "lastName").value else JNull)
      && (lead.phone == if TruthyOpt(OptProp(data, "phone")) then OptProp(data, "phone").value else JNull)
      && (lead.company == if TruthyOpt(OptProp(data, "company")) then OptProp(data, "company").value else JNull)
      && (lead.message == if TruthyOpt(OptProp(data, "message")) then OptProp(data, "message").value else JNull)
      && (lead.metadata == if TruthyOpt(OptProp(data, "metadata")) then OptProp(data, "metadata").value else JNull)
  {
  }

  /** The address is the first non-empty one of `x-forwarded-for` and `x-real-ip`, and `unknown`
   *  without either; it is never empty. User agent and referrer default to the empty string. */
  lemma ClientInfo(body: Option<Json>, h: Headers, q: Query)
    requires Post(body, h, q).Insert?
    ensures var lead := Post(body, h, q).lead;
      (lead.ipAddress == if h.forwardedFor.Some? && h.forwardedFor.value != "" then h.forwardedFor.value
                         else if h.realIp.Some? && h.realIp.value != "" then h.realIp.value
                         else "unknown")
      && lead.ipAddress != ""
      && (h.userAgent.None? ==> lead.userAgent == "")
      && (h.referer.None? ==> lead.referrer == "")
  {
  }

  /** The filter of the leads query. */
  datatype Filter = AllLeads | ByDomain(domain: string) | ByType(leadType: string)

  /** The leads query GET runs: its filter and its row limit (None when the limit parses to NaN).
   *  Rows come newest first. */
  datatype LeadsQuery = LeadsQuery(filter: Filter, limit: Option<int>)

  /** The conditions the handler pushes: one for a non-empty `domain`, then one for a non-empty
   *  `type`. */
  function Conditions(q: Query): (cs: seq<Filter>)
    ensures |cs| <= 2
  {
    var domain := QueryGet(q, "domain");
    var leadType := QueryGet(q, "type");
    (if domain.Some? && domain.value != "" then [ByDomain(domain.value)] else [])
    + (if leadType.Some? && leadType.value != "" then [ByType(leadType.value)] else [])
  }

  /** `GET(request)`: only the first condition is applied; the limit is
   *  `parseInt(limit || '100')`. */
  function Get(q: Query): LeadsQuery {
    var cs := Conditions(q);
    LeadsQuery(if |cs| > 0 then cs[0] else AllLeads, ParseInt(StrOr(QueryGet(q, "limit"), "100"), 0))
  }

  /** The filter is the domain when one is given, else the lead type when one is given, else
   *  none: with both, the type is ignored. */
  lemma GetFilter(q: Query)
    ensures var domain := QueryGet(q, "domain");
      var leadType := QueryGet(q, "type");
      Get(q).filter ==
        if domain.Some? && domain.value != "" then ByDomain(domain.value)
        else if leadType.Some? && leadType.value != "" then ByType(leadType.value)
        else AllLeads
  {
  }

  /** Without a `limit` parameter (or with an empty one) at most 100 leads are read. */
  lemma GetDefaultLimit(q: Query)
    requires QueryGet(q, "limit").None? || QueryGet(q, "limit").value == ""
    ensures Get(q).limit == Some(100)
  {
    assert NatToString(100) == "100";
    ParseDecimalOfToString(100);
  }

  /** A `limit` written as a decimal number is that limit. */
  lemma GetGivenLimit(q: Query, n: nat)
    requires QueryGet(q, "limit") == Some(NatToString(n))
    ensures Get(q).limit == Some(n)
  {
    ParseDecimalOfToString(n);
  }
}
