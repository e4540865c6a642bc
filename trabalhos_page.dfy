/** `frontend/src/pages/TrabalhosPage.tsx`, without the rendering: what the
    event list shows for each record `fetchTrabalhos` returns. The locale
    formatting of dates and times is passed in as a function. */
module TrabalhosPage {
  import opened Text
  import opened Js
  import opened Firestore
  import opened Trabalhos

  /** What the page shows for a missing value. */
  const Dash: string := "—"

  /** `formatDate(ts)` and `formatTime(ts)`: a dash when there is no
      timestamp, otherwise the timestamp as `render` (the pt-BR date, or the
      two-digit hour and minute) writes it. */
  function FormatStamp(v: Value, render: Timestamp -> string): (r: string)
    requires !Truthy(v) || v.Stamp?
    ensures !Truthy(v) ==> r == Dash
    ensures v.Stamp? ==> r == render(v.ts)
  {
    if !Truthy(v) then Dash else render(v.ts)
  }

  // ------------------------------------------------------------- participants

  /** `totalParticipantes(p)` when present. */
  datatype Totals = Totals(total: int, homens: int, mulheres: int, outros: int)

  /** The three counts are numbers, `null` or missing, as `Trabalho` declares. */
  predicate ParticipantsShaped(p: Value) {
    NumLike(Prop(p, "homens")) && NumLike(Prop(p, "mulheres")) && NumLike(Prop(p, "outros"))
  }

  /** `n ?? 0` on a count. */
  function Count(v: Value): (n: int)
    requires NumLike(v)
    ensures v.Num? ==> n == v.n
    ensures !v.Num? ==> n == 0
  {
    if v.Num? then v.n else 0
  }

  /** `totalParticipantes(p)`: nothing when there are no participants;
      otherwise the three counts, a missing one as 0, and their sum. */
  function TotalParticipantes(p: Value): (r: Option<Totals>)
    requires ParticipantsShaped(p)
    ensures r.None? <==> !Truthy(p)
    ensures r.Some? ==> r.value.homens == Count(Prop(p, "homens"))
    ensures r.Some? ==> r.value.mulheres == Count(Prop(p, "mulheres"))
    ensures r.Some? ==> r.value.outros == Count(Prop(p, "outros"))
    ensures r.Some? ==> r.value.total == r.value.homens + r.value.mulheres + r.value.outros
  {
    if !Truthy(p) then None
    else
      var h, m, o := Count(Prop(p, "homens")), Count(Prop(p, "mulheres")), Count(Prop(p, "outros"));
      Some(Totals(h + m + o, h, m, o))
  }

  /** Only the three counts matter: the number of children, a stored `total`
      or any other field can be anything without changing the totals. */
  lemma TotalsIgnoreOtherFields(fields: Fields, k: string, v: Value)
    requires k != "homens" && k != "mulheres" && k != "outros"
    requires ParticipantsShaped(Obj(fields))
    ensures ParticipantsShaped(Obj(fields[k := v]))
    ensures TotalParticipantes(Obj(fields[k := v])) == TotalParticipantes(Obj(fields))
  {
    var g := fields[k := v];
    assert Get(g, "homens") == Get(fields, "homens");
    assert Get(g, "mulheres") == Get(fields, "mulheres");
    assert Get(g, "outros") == Get(fields, "outros");
  }

  /** ` O:${outros}`, shown only when there are others. */
  function OthersPart(outros: int): (r: string)
    ensures r == "" <==> outros == 0
    ensures outros != 0 ==> r == " O:" + IntText(outros)
  {
    if outros != 0 then " O:" + IntText(outros) else ""
  }

  /** The participants line: a dash without participants, otherwise the
      total followed by the men, the women and, when there are any, the others. */
  function ParticipantsText(p: Value): (r: string)
    requires ParticipantsShaped(p)
    ensures r == Dash <==> !Truthy(p)
    ensures Truthy(p) ==> var t := TotalParticipantes(p).value;
      r == IntText(t.total) + " (H:" + IntText(t.homens) + " M:" + IntText(t.mulheres) + OthersPart(t.outros) + ")"
  {
    match TotalParticipantes(p)
    case None => Dash
    case Some(t) =>
      var r := IntText(t.total) + " (H:" + IntText(t.homens) + " M:" + IntText(t.mulheres) + OthersPart(t.outros) + ")";
      assert r[0] != Dash[0];
      r
  }

  // ------------------------------------------------------------------ labels

  /** `v || fallback` for an optional text: the text when it is non-empty. */
  function OrDefault(v: Value, fallback: string): (r: string)
    requires TextLike(v)
    ensures Truthy(v) ==> r == v.s
    ensures !Truthy(v) ==> r == fallback
    ensures fallback != "" ==> r != ""
  {
    if Truthy(v) then v.s else fallback
  }

  /** ` • ${quantidadeLitros} L`, shown only for a non-zero quantity. */
  function LitresSuffix(q: Value): (r: string)
    requires NumLike(q)
    ensures r == "" <==> !Truthy(q)
    ensures Truthy(q) ==> r == " • " + IntText(q.n) + " L"
  {
    if Truthy(q) then " • " + IntText(q.n) + " L" else ""
  }

  /** The batch fields of `bebida` have the types `Trabalho` declares. */
  predicate BebidaShaped(b: Value) {
    TextLike(Prop(b, "loteRef")) && TextLike(Prop(b, "loteId")) && NumLike(Prop(b, "quantidadeLitros"))
  }

  /** The beverage label: shown only when the event names a batch, by its
      `loteId` in preference to its `loteRef`, with the litres when given. */
  function BeverageText(b: Value): (r: Option<string>)
    requires BebidaShaped(b)
    ensures r.Some? <==> Truthy(Prop(b, "loteRef")) || Truthy(Prop(b, "loteId"))
    ensures Truthy(Prop(b, "loteId")) ==>
      r == Some("Daime: " + Prop(b, "loteId").s + LitresSuffix(Prop(b, "quantidadeLitros")))
    ensures !Truthy(Prop(b, "loteId")) && Truthy(Prop(b, "loteRef")) ==>
      r == Some("Daime: " + Prop(b, "loteRef").s + LitresSuffix(Prop(b, "quantidadeLitros")))
  {
    if Truthy(Prop(b, "loteRef")) || Truthy(Prop(b, "loteId")) then
      var lote := if Truthy(Prop(b, "loteId")) then Prop(b, "loteId").s else Prop(b, "loteRef").s;
      Some("Daime: " + lote + LitresSuffix(Prop(b, "quantidadeLitros")))
    else
      None
  }

  /** `xs?.length ? xs.join(', ') : '—'` */
  function ListText(v: Value): (r: string)
    requires TextListLike(v)
    ensures v.List? && v.items != [] ==> r == Join(Texts(v.items), ", ")
    ensures !(v.List? && v.items != []) ==> r == Dash
  {
    if v.List? && |v.items| > 0 then Join(Texts(v.items), ", ") else Dash
  }

  /** The expected duration in minutes, or a dash. */
  function ExpectedText(v: Value): (r: string)
    requires NumLike(v)
    ensures r == Dash <==> !Truthy(v)
    ensures Truthy(v) ==> r == IntText(v.n) + " min"
  {
    if Truthy(v) then
      var r := IntText(v.n) + " min";
      assert r[|r| - 1] != Dash[0];
      r
    else Dash
  }

  /** ` • Efetiva: ${duracaoEfetivaMin} min`, shown only for a non-zero duration. */
  function EffectiveSuffix(v: Value): (r: string)
    requires NumLike(v)
    ensures r == "" <==> !Truthy(v)
    ensures Truthy(v) ==> r == " • Efetiva: " + IntText(v.n) + " min"
  {
    if Truthy(v) then " • Efetiva: " + IntText(v.n) + " min" else ""
  }

  /** The notes paragraph, present only for non-empty notes. */
  function NotesText(v: Value): (r: Option<string>)
    requires TextLike(v)
    ensures r.Some? <==> Truthy(v)
    ensures r.Some? ==> r.value == v.s
  {
    if Truthy(v) then Some(v.s) else None
  }

  // ------------------------------------------------------------------- cards

  /** What one event card shows. */
  datatype Card = Card(
    title: string,
    date: string,
    time: string,
    location: string,
    beverage: Option<string>,
    igrejas: string,
    hinarios: string,
    participants: string,
    duration: string,
    notes: Option<string>)

  /** An event record whose fields the card reads have the types `Trabalho`
      declares (the page reads `local` and `igrejasResponsaveis`, which it
      expects to be a text and a list of texts). */
  predicate Shaped(t: Fields) {
    && TextLike(Get(t, "titulo")) && TextLike(Get(t, "local")) && TextLike(Get(t, "anotacoes"))
    && (!Truthy(Get(t, "data")) || Get(t, "data").Stamp?)
    && (!Truthy(Get(t, "horarioInicio")) || Get(t, "horarioInicio").Stamp?)
    && BebidaShaped(Get(t, "bebida"))
    && TextListLike(Get(t, "igrejasResponsaveis")) && TextListLike(Get(t, "hinarios"))
    && ParticipantsShaped(Get(t, "participantes"))
    && NumLike(Get(t, "duracaoEsperadaMin")) && NumLike(Get(t, "duracaoEfetivaMin"))
  }

  /** The card of one event: never an empty title or location, a dash for
      a missing date, time or participant list, and the optional beverage
      and notes only when there is something to show. */
  function CardOf(t: Fields, date: Timestamp -> string, time: Timestamp -> string): (r: Card)
    requires Shaped(t)
    ensures r.title != "" && r.location != ""
    ensures r.title == OrDefault(Get(t, "titulo"), "Trabalho")
    ensures r.location == OrDefault(Get(t, "local"), "Local a definir")
    ensures r.date == FormatStamp(Get(t, "data"), date) && r.time == FormatStamp(Get(t, "horarioInicio"), time)
    ensures r.beverage == BeverageText(Get(t, "bebida"))
    ensures r.igrejas == ListText(Get(t, "igrejasResponsaveis")) && r.hinarios == ListText(Get(t, "hinarios"))
    ensures r.participants == ParticipantsText(Get(t, "participantes"))
    ensures r.duration == ExpectedText(Get(t, "duracaoEsperadaMin")) + EffectiveSuffix(Get(t, "duracaoEfetivaMin"))
    ensures r.notes == NotesText(Get(t, "anotacoes"))
  {
    Card(
      OrDefault(Get(t, "titulo"), "Trabalho"),
      FormatStamp(Get(t, "data"), date),
      FormatStamp(Get(t, "horarioInicio"), time),
      OrDefault(Get(t, "local"), "Local a definir"),
      BeverageText(Get(t, "bebida")),
      ListText(Get(t, "igrejasResponsaveis")),
      ListText(Get(t, "hinarios")),
      ParticipantsText(Get(t, "participantes")),
      ExpectedText(Get(t, "duracaoEsperadaMin")) + EffectiveSuffix(Get(t, "duracaoEfetivaMin")),
      NotesText(Get(t, "anotacoes")))
  }

  /** What the page shows while the query is pending, after it failed, for
      an empty list, and otherwise. */
  datatype View = Loading | LoadError | NoEvents | Events(cards: seq<Card>)

  /** `TrabalhosPage`: the loading and error states come first; an empty list
      has its own message; otherwise one card per event, in the order read. */
  function PageView(isLoading: bool, read: Read<seq<Fields>>, date: Timestamp -> string, time: Timestamp -> string): (r: View)
    requires read.Loaded? ==> forall i :: 0 <= i < |read.value| ==> Shaped(read.value[i])
    ensures isLoading <==> r.Loading?
    ensures r.LoadError? <==> !isLoading && read.Failed?
    ensures r.NoEvents? <==> !isLoading && read.Loaded? && read.value == []
    ensures r.Events? ==> read.Loaded? && |r.cards| == |read.value| > 0
    ensures r.Events? ==> forall i :: 0 <= i < |r.cards| ==> r.cards[i] == CardOf(read.value[i], date, time)
  {
    if isLoading then Loading
    else match read
      case Failed(_) => LoadError
      case Loaded(data) =>
        if |data| == 0 then NoEvents
        else Events(seq(|data|, i requires 0 <= i < |data| => CardOf(data[i], date, time)))
  }

  // ------------------------------------------------- created events on the page

  /** The page reads the location from `local`, a field `createTrabalho`
      does not write: an event created without one shows "Local a definir",
      whatever `localNome` or `localTexto` it carries. */
  lemma CreatedEventHasNoLocation(input: Fields, id: string, created: Timestamp, updated: Timestamp)
    requires Get(input, "local") == Undefined
    ensures var rec := NormalizeTrabalho(DocSnap(id, MergeWrite(map[], CreateTrabalhoPayload(input, created, updated))));
      Get(rec, "local") == Undefined && OrDefault(Get(rec, "local"), "Local a definir") == "Local a definir"
  {
    CreatedTrabalhoOmits(input, id, created, updated, "local");
  }

  /** Likewise the responsible churches come from `igrejasResponsaveis`:
      an event created with only `igrejasResponsaveisNomes` shows a dash. */
  lemma CreatedEventHasNoChurches(input: Fields, id: string, created: Timestamp, updated: Timestamp)
    requires Get(input, "igrejasResponsaveis") == Undefined
    ensures var rec := NormalizeTrabalho(DocSnap(id, MergeWrite(map[], CreateTrabalhoPayload(input, created, updated))));
      Get(rec, "igrejasResponsaveis") == Undefined && ListText(Get(rec, "igrejasResponsaveis")) == Dash
  {
    CreatedTrabalhoOmits(input, id, created, updated, "igrejasResponsaveis");
  }

  /** An event created without a date is stored with `data: null` and shows a
      dash; one created with a date shows that date. */
  lemma CreatedEventDate(input: Fields, id: string, created: Timestamp, updated: Timestamp, render: Timestamp -> string)
    requires !Truthy(Get(input, "data")) || Get(input, "data").Stamp?
    ensures var rec := NormalizeTrabalho(DocSnap(id, MergeWrite(map[], CreateTrabalhoPayload(input, created, updated))));
      var shown := Get(rec, "data");
      && (!Truthy(shown) || shown.Stamp?)
      && FormatStamp(shown, render) == if Get(input, "data").Stamp? then render(Get(input, "data").ts) else Dash
  {
    CreatedTrabalhoReadsBack(input, id, created, updated);
  }
  /** The card's start time does not depend on its date: an event created
      with a start time but no date shows a dash for the date and the start
      time all the same. */
  lemma CreatedEventTimeWithoutDate(input: Fields, id: string, created: Timestamp, updated: Timestamp,
                                    date: Timestamp -> string, time: Timestamp -> string)
    requires !Truthy(Get(input, "data")) && Get(input, "horarioInicio").Stamp?
    ensures var rec := NormalizeTrabalho(DocSnap(id, MergeWrite(map[], CreateTrabalhoPayload(input, created, updated))));
      && FormatStamp(Get(rec, "data"), date) == Dash
      && FormatStamp(Get(rec, "horarioInicio"), time) == time(Get(input, "horarioInicio").ts)
  {
    CreatedTrabalhoReadsBack(input, id, created, updated);
  }
}
