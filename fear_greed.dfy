/** The Fear & Greed gauge (components/FearGreedIndex.tsx). */
module FearGreed {
  import opened Wrappers
  import opened Json
  import opened Http
  import opened Validation
  import opened Store

  const RefreshIntervalMs: nat := 5 * 60 * 1000

  /** The two strings of the first entry of an ok, valid reply. */
  predicate HasFirstEntry(reply: Reply) {
    OkBody(reply).Some? && Conforms(FearGreedSchema, reply.body.value)
  }

  function FirstEntry(reply: Reply): (string, string)
    requires HasFirstEntry(reply)
  {
    FearGreedSchemaAccepts(reply.body.value);
    var e := reply.body.value.fields["data"].items[0];
    (e.fields["value"].s, e.fields["value_classification"].s)
  }

  /** What `fetchFearGreed` writes, if anything: the first entry's index, read by `parseInt`
      (None for NaN), and its classification, when the index lies in [0, 100]. */
  function Reading(reply: Reply, parseInt: string -> Option<int>): (r: Option<(int, string)>)
    ensures r.Some? <==> HasFirstEntry(reply) && parseInt(FirstEntry(reply).0).Some? &&
                         0 <= parseInt(FirstEntry(reply).0).value <= 100
    ensures r.Some? ==> r.value == (parseInt(FirstEntry(reply).0).value, FirstEntry(reply).1)
    ensures r.Some? ==> 0 <= r.value.0 <= 100
  {
    match OkBody(reply)
    case None => None
    case Some(raw) =>
      match SafeValidate(FearGreedSchema, raw) {
        case Failure(_) => None
        case Success(data) =>
          FearGreedFirstEntry(raw);
          var entry := data.fields["data"].items[0];
          match parseInt(entry.fields["value"].s) {
            case None => None
            case Some(index) =>
              if 0 <= index <= 100 then Some((index, entry.fields["value_classification"].s)) else None
          }
      }
  }

  /** Only the first entry matters: replies that agree on it lead to the same write. */
  lemma OnlyFirstEntryCounts(r1: Reply, r2: Reply, parseInt: string -> Option<int>)
    requires HasFirstEntry(r1) && HasFirstEntry(r2)
    requires r1.body.value.fields["data"].items[0] == r2.body.value.fields["data"].items[0]
    ensures Reading(r1, parseInt) == Reading(r2, parseInt)
  {
  }

  method FetchFearGreed(store: MarketStore, reply: Reply, parseInt: string -> Option<int>)
    requires store.Valid()
    modifies store
    ensures store.Valid()
    ensures Reading(reply, parseInt).None? ==> store.Current() == old(store.Current())
    ensures Reading(reply, parseInt).Some? ==>
      store.Current() == old(store.Current()).(fearGreedIndex := Some(Reading(reply, parseInt).value.0),
                                               fearGreedValue := Some(Reading(reply, parseInt).value.1))
  {
    var r := Reading(reply, parseInt);
    if r.Some? {
      store.SetFearGreed(r.value.0, r.value.1);
    }
  }

  // ---------------------------------------------------------------------------
  // Colour bands and display
  // ---------------------------------------------------------------------------

  const Gray := "#71717a"
  const Red := "#ef4444"
  const Orange := "#f97316"
  const Yellow := "#eab308"
  const Green := "#22c55e"
  const Purple := "#8b5cf6"

  /** `getColor` as written: `!index` treats a stored index of 0 like a missing one. */
  function GetColorAsWritten(index: Option<int>): (c: string)
    ensures c == Gray <==> index.None? || index.value == 0
    ensures index.Some? && index.value != 0 ==> c == GetColor(index)
  {
    if index.None? || index.value == 0 then Gray
    else if index.value <= 25 then Red
    else if index.value <= 45 then Orange
    else if index.value <= 55 then Yellow
    else if index.value <= 75 then Green
    else Purple
  }

  /** `getColor` as intended: gray only while there is no reading. */
  function GetColor(index: Option<int>): (c: string)
    ensures c == Gray <==> index.None?
    ensures index.Some? ==> (c == Red <==> index.value <= 25)
    ensures index.Some? ==> (c == Orange <==> 25 < index.value <= 45)
    ensures index.Some? ==> (c == Yellow <==> 45 < index.value <= 55)
    ensures index.Some? ==> (c == Green <==> 55 < index.value <= 75)
    ensures index.Some? ==> (c == Purple <==> 75 < index.value)
  {
    if index.None? then Gray
    else if index.value <= 25 then Red
    else if index.value <= 45 then Orange
    else if index.value <= 55 then Yellow
    else if index.value <= 75 then Green
    else Purple
  }

  /** The two agree on every reading except 0, the most fearful one. */
  lemma GetColorAsWrittenHidesZero(index: Option<int>)
    ensures GetColorAsWritten(index) == GetColor(index) <==> index != Some(0)
    ensures GetColorAsWritten(Some(0)) == Gray && GetColor(Some(0)) == Red
  {
  }

  /** The dial text: the index, or "--" before the first reading; `show` renders a number. */
  function IndexTextAsWritten(index: Option<int>, show: int -> string): (t: string)
    ensures index.None? || index.value == 0 ==> t == "--"
    ensures index.Some? && index.value != 0 ==> t == IndexText(index, show)
  {
    if index.None? || index.value == 0 then "--" else show(index.value)
  }

  function IndexText(index: Option<int>, show: int -> string): (t: string)
    ensures index.None? ==> t == "--"
    ensures index.Some? ==> t == show(index.value)
  {
    if index.None? then "--" else show(index.value)
  }

  /** A stored reading of 0 is shown as "--", as if nothing had been read. */
  lemma IndexTextAsWrittenHidesZero(show: int -> string)
    requires show(0) == "0"
    ensures IndexTextAsWritten(Some(0), show) == "--" && IndexText(Some(0), show) == "0"
  {
  }

  /** The label: the classification, or "Loading..." before the first reading (an empty
      classification is shown as "Loading..." too). */
  function LabelText(value: Option<string>): (t: string)
    ensures t == "Loading..." <==> value.None? || value.value == "" || value.value == "Loading..."
  {
    if value.None? || value.value == "" then "Loading..." else value.value
  }

  /** Every value the poll can store is drawn in the band of its range, never in gray. */
  lemma StoredReadingIsColoured(reply: Reply, parseInt: string -> Option<int>)
    requires Reading(reply, parseInt).Some?
    ensures GetColor(Some(Reading(reply, parseInt).value.0)) != Gray
  {
  }
}
