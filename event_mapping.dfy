/**
 * The pure part of the handler's success path: reducing the parsed upstream
 * body to one list of raw events, and mapping each raw event to the four
 * fields the calendar widget reads.
 */
module EventMapping {
  import opened Wrappers
  import opened Decimal
  import opened JsValues

  /** Prefix of the public page link synthesised when an event carries none. */
  const EventsPageBase := "https://tickettailor.com/events/"

  /** One element of the response array. */
  datatype Event = Event(id: Value, name: Value, starts_at: Value, url: Value)

  /**
   * `Array.isArray(raw) ? raw : (raw.data || [])`: the value whose `.map` the
   * handler calls. Reading `data` of null throws.
   */
  function EventsArray(raw: Json): (r: Result<Json, Thrown>)
    ensures raw.JArr? ==> r == Ok(raw)
    ensures raw.JNull? ==> r == Err(TypeError)
    ensures !raw.JArr? && !raw.JNull? && Truthy(Property(raw, "data")) ==>
              r == Ok(Property(raw, "data").json)
    ensures !raw.JArr? && !raw.JNull? && !Truthy(Property(raw, "data")) ==>
              r == Ok(JArr([]))
  {
    if raw.JArr? then Ok(raw)
    else if raw.JNull? then Err(TypeError)
    else
      var v := Or(Property(raw, "data"), Def(JArr([])));
      Ok(v.json)
  }

  /** The link `${id}` yields after the events page prefix. */
  function FallbackUrl(id: Value): (u: string)
    ensures EventsPageBase <= u && u[|EventsPageBase|..] == TemplateString(id)
  {
    EventsPageBase + TemplateString(id)
  }

  /** The arrow function passed to `.map`, on an element that is not null. */
  function MapEvent(ev: Json): (e: Event)
    requires !ev.JNull?
    // id and name are copied unchanged
    ensures e.id == Property(ev, "id") && e.name == Property(ev, "name")
    // starts_at is the first truthy of starts_at, start_at, start_time; else start_time
    ensures var cands := [Property(ev, "starts_at"), Property(ev, "start_at"), Property(ev, "start_time")];
            e.starts_at == cands[FirstTruthyIndex(cands)]
    ensures Truthy(e.starts_at) <==>
              Truthy(Property(ev, "starts_at")) || Truthy(Property(ev, "start_at")) ||
              Truthy(Property(ev, "start_time"))
    // url is public_url, else url, else the synthesised page link; it is never falsy
    ensures Truthy(e.url)
    ensures Truthy(Property(ev, "public_url")) ==> e.url == Property(ev, "public_url")
    ensures !Truthy(Property(ev, "public_url")) && Truthy(Property(ev, "url")) ==>
              e.url == Property(ev, "url")
    ensures !Truthy(Property(ev, "public_url")) && !Truthy(Property(ev, "url")) ==>
              e.url == Def(JStr(FallbackUrl(Property(ev, "id"))))
  {
    var id := Property(ev, "id");
    OrChain3(Property(ev, "starts_at"), Property(ev, "start_at"), Property(ev, "start_time"));
    Event(
      id,
      Property(ev, "name"),
      Or(Or(Property(ev, "starts_at"), Property(ev, "start_at")), Property(ev, "start_time")),
      Or(Or(Property(ev, "public_url"), Property(ev, "url")), Def(JStr(FallbackUrl(id)))))
  }

  /** No element of the list is null, so the callback never throws. */
  predicate NoNulls(items: seq<Json>) {
    forall i :: 0 <= i < |items| ==> !items[i].JNull?
  }

  /**
   * `items.map(ev => ...)`: the callback throws on the first null element,
   * otherwise the result has one mapped event per element, in order.
   */
  function MapEvents(items: seq<Json>): (r: Result<seq<Event>, Thrown>)
    ensures r.Ok? <==> NoNulls(items)
    ensures r.Err? ==> r.error == TypeError
    ensures r.Ok? ==> |r.value| == |items|
    ensures r.Ok? ==> forall i :: 0 <= i < |items| ==> r.value[i] == MapEvent(items[i])
    decreases |items|
  {
    if |items| == 0 then Ok([])
    else if items[0].JNull? then Err(TypeError)
    else
      match MapEvents(items[1..])
      case Err(e) => Err(e)
      case Ok(rest) => Ok([MapEvent(items[0])] + rest)
  }

  /** `eventsArray.map(...)`: anything but an array has no `map` method. */
  function MapArray(arr: Json): (r: Result<seq<Event>, Thrown>)
    ensures r.Ok? <==> arr.JArr? && NoNulls(arr.items)
    ensures r.Err? ==> r.error == TypeError
    ensures r.Ok? ==> |r.value| == |arr.items|
    ensures r.Ok? ==> forall i :: 0 <= i < |arr.items| ==> r.value[i] == MapEvent(arr.items[i])
  {
    if arr.JArr? then MapEvents(arr.items) else Err(TypeError)
  }

  /** The list under `data` that a non-null, non-array body carries, when it carries one. */
  predicate HasDataList(raw: Json)
    requires !raw.JNull?
  {
    Truthy(Property(raw, "data")) && Property(raw, "data").json.JArr?
  }

  /**
   * Lines 50 and 53-62 together: the parsed body to the list sent back. It
   * succeeds for an array without null elements, for any other non-null body
   * whose `data` is falsy, and for one whose `data` is such an array; it throws
   * for a null body, a truthy non-array `data`, or a null element.
   */
  function NormalizeBody(raw: Json): (r: Result<seq<Event>, Thrown>)
    ensures r.Ok? <==>
              (raw.JArr? && NoNulls(raw.items)) ||
              (!raw.JArr? && !raw.JNull? &&
               (!Truthy(Property(raw, "data")) ||
                (HasDataList(raw) && NoNulls(Property(raw, "data").json.items))))
    ensures r.Err? ==> r.error == TypeError
    ensures raw.JNull? ==> r == Err(TypeError)
    ensures raw.JArr? ==> r == MapEvents(raw.items)
    ensures !raw.JArr? && !raw.JNull? && !Truthy(Property(raw, "data")) ==> r == Ok([])
    ensures !raw.JArr? && !raw.JNull? && HasDataList(raw) ==>
              r == MapEvents(Property(raw, "data").json.items)
  {
    match EventsArray(raw)
    case Err(e) => Err(e)
    case Ok(arr) => MapArray(arr)
  }

  /** Both body shapes the upstream may use, bare or wrapped in `data`, give the same list. */
  lemma BareAndWrappedAgree(items: seq<Json>, fields: map<string, Json>)
    requires "data" in fields && fields["data"] == JArr(items)
    ensures NormalizeBody(JObj(fields)) == NormalizeBody(JArr(items))
  {
  }

  /** A successful normalisation keeps the length and the order of the raw list. */
  lemma NormalizedLengthAndOrder(raw: Json, evs: seq<Event>)
    requires raw.JArr?
    requires NormalizeBody(raw) == Ok(evs)
    ensures |evs| == |raw.items|
    ensures forall i :: 0 <= i < |evs| ==> evs[i].id == Property(raw.items[i], "id")
    ensures forall i :: 0 <= i < |evs| ==> Truthy(evs[i].url)
  {
  }

  /** Two events given the synthesised link with numeric ids share a link only if they share the id. */
  lemma FallbackUrlInjectiveOnNumbers(a: SafeInteger, b: SafeInteger)
    requires FallbackUrl(Def(JNum(a))) == FallbackUrl(Def(JNum(b)))
    ensures a == b
  {
    var ua, ub := FallbackUrl(Def(JNum(a))), FallbackUrl(Def(JNum(b)));
    assert ua[|EventsPageBase|..] == IntToString(a);
    assert ub[|EventsPageBase|..] == IntToString(b);
    IntToStringInjective(a, b);
  }
}
