/** The record-shaping half of `frontend/src/lib/trabalhos.ts`: how stored
    documents of the `trabalhos`, `igrejas` and `bebidaLotes` collections
    become in-memory records, and how user input becomes the payload that is
    written. The Firestore calls themselves are the reader and writer of the
    `Firestore` module; each reading of the clock (`Timestamp.now()`) is a
    parameter: `now` for one reading, `created` and `updated` for the two
    readings a creation makes. */
module Trabalhos {
  import opened Text
  import opened Js
  import opened Firestore

  /** `cleanUndefined(obj)`: exactly the entries whose value is not
      `undefined`, values unchanged (so `null` entries survive). */
  function CleanUndefined(obj: Fields): (r: Fields)
    ensures forall k :: k in r <==> k in obj && obj[k] != Undefined
    ensures forall k :: k in r ==> r[k] == obj[k]
  {
    map k | k in obj && obj[k] != Undefined :: obj[k]
  }

  // ---------------------------------------------------------------- trabalhos

  /** `r.k` is present and never `undefined`: `null` exactly when `src.k` is
      missing, `undefined` or `null`, and `src.k` otherwise (the effect of
      `k: src.k ?? null`). */
  predicate NullDefaulted(r: Fields, src: Fields, k: string) {
    && k in r && r[k] != Undefined
    && (r[k] == Null <==> Get(src, k).Undefined? || Get(src, k).Null?)
    && (r[k] != Null ==> r[k] == src[k])
  }

  /** The mapping body of `fetchTrabalhos`:
      `{ id: doc.id, ...data, data: data.data ?? null, horarioInicio: data.horarioInicio ?? null }`.
      A stored `id` field wins over the document id, because the spread comes after it. */
  function NormalizeTrabalho(d: DocSnap): (r: Fields)
    ensures r.Keys == d.data.Keys + {"id", "data", "horarioInicio"}
    ensures r["id"] == if "id" in d.data then d.data["id"] else Str(d.id)
    ensures NullDefaulted(r, d.data, "data") && NullDefaulted(r, d.data, "horarioInicio")
    ensures forall k :: k in d.data && k != "data" && k != "horarioInicio" ==> r[k] == d.data[k]
  {
    (map["id" := Str(d.id)] + d.data)
      ["data" := Coalesce(Get(d.data, "data"), Null)]
      ["horarioInicio" := Coalesce(Get(d.data, "horarioInicio"), Null)]
  }

  /** `fetchTrabalhos()`: every document normalised, in the order the reader
      gives them; a read failure is not caught and reaches the caller. */
  function FetchTrabalhos(read: Read<seq<DocSnap>>): (r: Read<seq<Fields>>)
    ensures read.Failed? ==> r == Failed(read.reason)
    ensures read.Loaded? ==> r.Loaded? && |r.value| == |read.value|
    ensures read.Loaded? ==> forall i :: 0 <= i < |r.value| ==> r.value[i] == NormalizeTrabalho(read.value[i])
    ensures read.Loaded? ==> forall i :: 0 <= i < |r.value| ==>
      NullDefaulted(r.value[i], read.value[i].data, "data") && NullDefaulted(r.value[i], read.value[i].data, "horarioInicio")
  {
    match read
    case Failed(reason) => Failed(reason)
    case Loaded(docs) => Loaded(seq(|docs|, i requires 0 <= i < |docs| => NormalizeTrabalho(docs[i])))
  }

  // ------------------------------------------------------------------ igrejas

  /** `IgrejaInfo`: a church as the reader returns it. Every key is present;
      the optional ones may hold `undefined`. */
  datatype IgrejaInfo = IgrejaInfo(
    id: string,
    nome: Value,
    cidade: Value,
    estado: Value,
    pais: Value,
    linhagem: Value,
    observacoes: Value,
    lat: Value,
    lng: Value)

  /** `typeof v === 'number' ? v : undefined` */
  function NumberOrUndefined(v: Value): (r: Value)
    ensures r.Undefined? || r.Num?
    ensures v.Num? ==> r == v
    ensures !v.Num? ==> r == Undefined
  {
    if v.Num? then v else Undefined
  }

  /** The mapping body of `fetchIgrejas`. */
  function NormalizeIgreja(d: DocSnap): (r: IgrejaInfo)
    ensures r.id == d.id
    ensures Truthy(Get(d.data, "nome")) ==> r.nome == d.data["nome"]
    ensures !Truthy(Get(d.data, "nome")) ==> r.nome == Str(d.id)
    ensures d.id != "" ==> Truthy(r.nome)
    ensures r.cidade == Get(d.data, "cidade") && r.estado == Get(d.data, "estado")
    ensures r.pais == Get(d.data, "pais") && r.linhagem == Get(d.data, "linhagem")
    ensures r.observacoes == Get(d.data, "observacoes")
    ensures (r.lat.Num? || r.lat.Undefined?) && (r.lng.Num? || r.lng.Undefined?)
    ensures Get(d.data, "lat").Num? ==> r.lat == d.data["lat"]
    ensures Get(d.data, "lng").Num? ==> r.lng == d.data["lng"]
  {
    var f := d.data;
    IgrejaInfo(
      d.id,
      Or(Get(f, "nome"), Str(d.id)),
      Get(f, "cidade"),
      Get(f, "estado"),
      Get(f, "pais"),
      Get(f, "linhagem"),
      Get(f, "observacoes"),
      NumberOrUndefined(Get(f, "lat")),
      NumberOrUndefined(Get(f, "lng")))
  }

  /** `fetchIgrejas()`: a failed read is caught and yields the empty list. */
  function FetchIgrejas(read: Read<seq<DocSnap>>): (r: seq<IgrejaInfo>)
    ensures read.Failed? ==> r == []
    ensures read.Loaded? ==> |r| == |read.value|
    ensures read.Loaded? ==> forall i :: 0 <= i < |r| ==> r[i] == NormalizeIgreja(read.value[i])
    ensures forall i :: 0 <= i < |r| && r[i].id != "" ==> Truthy(r[i].nome)
  {
    match read
    case Failed(_) => []
    case Loaded(docs) => seq(|docs|, i requires 0 <= i < |docs| => NormalizeIgreja(docs[i]))
  }

  /** The keys a `createIgreja` payload may carry. */
  const CreatedIgrejaKeys: set<string> :=
    {"nome", "cidade", "estado", "pais", "linhagem", "observacoes", "lat", "lng", "createdAt", "updatedAt"}

  /** `r.k` reads as `input.k` when `keep` holds, and as `undefined`
      otherwise; on a payload that holds no `undefined`, that is: `r` carries
      `input.k` exactly when `keep` holds. */
  predicate KeptWhen(r: Fields, input: Fields, k: string, keep: bool) {
    Get(r, k) == if keep then Get(input, k) else Undefined
  }

  /** An optional text of `IgrejaInput` on creation: written only when non-empty. */
  predicate TextKept(r: Fields, input: Fields, k: string) {
    KeptWhen(r, input, k, Truthy(Get(input, k)))
  }

  /** A coordinate: written only when it is a number. */
  predicate CoordKept(r: Fields, input: Fields, k: string) {
    KeptWhen(r, input, k, Get(input, k).Num?)
  }

  /** The payload of `createIgreja(input)`: the name, the non-empty optional
      texts, the coordinates that are numbers, and both timestamps; nothing
      bound to `undefined` and no other key of the input. */
  function CreateIgrejaPayload(input: Fields, created: Timestamp, updated: Timestamp): (r: Fields)
    ensures r.Keys <= CreatedIgrejaKeys
    ensures forall k :: k in r ==> r[k] != Undefined
    ensures Get(r, "createdAt") == Stamp(created) && Get(r, "updatedAt") == Stamp(updated)
  {
    CleanUndefined(map[
      "nome" := Get(input, "nome"),
      "cidade" := Or(Get(input, "cidade"), Undefined),
      "estado" := Or(Get(input, "estado"), Undefined),
      "pais" := Or(Get(input, "pais"), Undefined),
      "linhagem" := Or(Get(input, "linhagem"), Undefined),
      "observacoes" := Or(Get(input, "observacoes"), Undefined),
      "lat" := NumberOrUndefined(Get(input, "lat")),
      "lng" := NumberOrUndefined(Get(input, "lng")),
      "createdAt" := Stamp(created),
      "updatedAt" := Stamp(updated)])
  }

  /** A created church carries its name whenever the input has one, and its
      coordinates only when they are numbers. */
  lemma CreatedIgrejaNameAndCoords(input: Fields, created: Timestamp, updated: Timestamp)
    ensures var r := CreateIgrejaPayload(input, created, updated);
      Get(r, "nome") == Get(input, "nome") && CoordKept(r, input, "lat") && CoordKept(r, input, "lng")
  {
  }

  /** A created church carries its city, state and country only when they are non-empty. */
  lemma CreatedIgrejaPlace(input: Fields, created: Timestamp, updated: Timestamp)
    ensures var r := CreateIgrejaPayload(input, created, updated);
      TextKept(r, input, "cidade") && TextKept(r, input, "estado") && TextKept(r, input, "pais")
  {
  }

  /** A created church carries its lineage and notes only when they are non-empty. */
  lemma CreatedIgrejaNotes(input: Fields, created: Timestamp, updated: Timestamp)
    ensures var r := CreateIgrejaPayload(input, created, updated);
      TextKept(r, input, "linhagem") && TextKept(r, input, "observacoes")
  {
  }

  /** The payload of `updateIgreja(id, input)`: the supplied fields as given
      (an empty string is kept, unlike on creation), coordinates only when
      they are numbers, and `updatedAt`; `createdAt` only if the input itself
      carries one. */
  function UpdateIgrejaPayload(input: Fields, now: Timestamp): (r: Fields)
    ensures Get(r, "updatedAt") == Stamp(now)
    ensures CoordKept(r, input, "lat") && CoordKept(r, input, "lng")
    ensures forall k :: k != "lat" && k != "lng" && k != "updatedAt" ==> Get(r, k) == Get(input, k)
    ensures forall k :: k in r ==> r[k] != Undefined
  {
    CleanUndefined(input
      ["lat" := NumberOrUndefined(Get(input, "lat"))]
      ["lng" := NumberOrUndefined(Get(input, "lng"))]
      ["updatedAt" := Stamp(now)])
  }

  // ------------------------------------------------------------- bebidaLotes

  /** `BebidaInfo`: a beverage batch as the reader returns it. */
  datatype BebidaInfo = BebidaInfo(id: string, descricao: Value)

  /** `${d.grau ?? '?'}º grau, ${d.concentracao ?? ''} ${d.ano ?? ''} ${d.localidade ?? ''}`, before trimming. */
  function BebidaTemplate(d: Fields): (r: string)
    ensures var g := ToText(Coalesce(Get(d, "grau"), Str("?")));
      |g| < |r| && r[..|g|] == g && r[|g|] == 'º'
    ensures !AllSpace(r)
  {
    var g := ToText(Coalesce(Get(d, "grau"), Str("?")));
    var tail := "º grau, "
      + ToText(Coalesce(Get(d, "concentracao"), Str(""))) + " "
      + ToText(Coalesce(Get(d, "ano"), Str(""))) + " "
      + ToText(Coalesce(Get(d, "localidade"), Str("")));
    PrefixThen(g, tail);
    g + tail
  }

  /** Text made of `g` and then a tail starting with 'º' keeps `g` as its prefix and is not blank. */
  lemma PrefixThen(g: string, tail: string)
    requires tail != [] && tail[0] == 'º'
    ensures |g| < |g + tail| && (g + tail)[..|g|] == g && (g + tail)[|g|] == 'º'
    ensures !AllSpace(g + tail)
  {
    assert !IsSpace((g + tail)[|g|]);
  }

  /** The mapping body of `fetchBebidaLotes`: the stored description when it
      is truthy, otherwise the trimmed template, which is never empty. */
  function NormalizeBebida(d: DocSnap): (r: BebidaInfo)
    ensures r.id == d.id
    ensures Truthy(Get(d.data, "descricao")) ==> r.descricao == d.data["descricao"]
    ensures !Truthy(Get(d.data, "descricao")) ==> r.descricao == Str(Trim(BebidaTemplate(d.data)))
    ensures Truthy(r.descricao)
  {
    var stored := Get(d.data, "descricao");
    if Truthy(stored) then BebidaInfo(d.id, stored)
    else
      TemplateNeverBlank(d.data);
      BebidaInfo(d.id, Str(Trim(BebidaTemplate(d.data))))
  }

  /** The trimmed template always keeps at least the 'º' after the degree. */
  lemma TemplateNeverBlank(d: Fields)
    ensures Trim(BebidaTemplate(d)) != []
  {
  }

  /** `fetchBebidaLotes()`: a failed read is caught and yields the empty list;
      every batch has a non-empty description. */
  function FetchBebidaLotes(read: Read<seq<DocSnap>>): (r: seq<BebidaInfo>)
    ensures read.Failed? ==> r == []
    ensures read.Loaded? ==> |r| == |read.value|
    ensures read.Loaded? ==> forall i :: 0 <= i < |r| ==> r[i] == NormalizeBebida(read.value[i])
    ensures forall i :: 0 <= i < |r| ==> Truthy(r[i].descricao)
  {
    match read
    case Failed(_) => []
    case Loaded(docs) => seq(|docs|, i requires 0 <= i < |docs| => NormalizeBebida(docs[i]))
  }

  // --------------------------------------------------------- trabalho writes

  /** The payload of `createTrabalho(input)`: the input spread as is, the two
      durations, the date and the start time never missing (`null` when the
      input has none), and both timestamps. */
  function CreateTrabalhoPayload(input: Fields, created: Timestamp, updated: Timestamp): (r: Fields)
    ensures r.Keys == input.Keys + {"duracaoEsperadaMin", "duracaoEfetivaMin", "data", "horarioInicio", "createdAt", "updatedAt"}
    ensures NullDefaulted(r, input, "duracaoEsperadaMin") && NullDefaulted(r, input, "duracaoEfetivaMin")
    ensures NullDefaulted(r, input, "data") && NullDefaulted(r, input, "horarioInicio")
    ensures r["createdAt"] == Stamp(created) && r["updatedAt"] == Stamp(updated)
    ensures forall k ::
      (k in input && k != "duracaoEsperadaMin" && k != "duracaoEfetivaMin" && k != "data"
       && k != "horarioInicio" && k != "createdAt" && k != "updatedAt") ==> r[k] == input[k]
  {
    input
      ["duracaoEsperadaMin" := Coalesce(Get(input, "duracaoEsperadaMin"), Null)]
      ["duracaoEfetivaMin" := Coalesce(Get(input, "duracaoEfetivaMin"), Null)]
      ["data" := Coalesce(Get(input, "data"), Null)]
      ["horarioInicio" := Coalesce(Get(input, "horarioInicio"), Null)]
      ["createdAt" := Stamp(created)]
      ["updatedAt" := Stamp(updated)]
  }

  /** The payload of `updateTrabalho(id, input)`: the supplied fields and
      `updatedAt`, nothing else. */
  function UpdateTrabalhoPayload(input: Fields, now: Timestamp): (r: Fields)
    ensures r.Keys == input.Keys + {"updatedAt"}
    ensures r["updatedAt"] == Stamp(now)
    ensures forall k :: k in input && k != "updatedAt" ==> r[k] == input[k]
  {
    input["updatedAt" := Stamp(now)]
  }

  /** Storing a payload keeps what a defaulted key says about the input. */
  lemma StoredKeepsDefault(p: Fields, input: Fields, k: string)
    requires NullDefaulted(p, input, k)
    ensures NullDefaulted(MergeWrite(map[], p), input, k)
  {
  }

  /** Reading a document back keeps what a defaulted key says about the input. */
  lemma ReadKeepsDefault(d: DocSnap, input: Fields, k: string)
    requires NullDefaulted(d.data, input, k)
    ensures NullDefaulted(NormalizeTrabalho(d), input, k)
  {
  }

  /** An event written by `createTrabalho` and read back by `fetchTrabalhos`
      has its date, start time and both durations as the input gave them,
      with `null` for the ones it lacked; both its timestamps; and the
      document id as `id` unless the input carried an `id` of its own. */
  lemma CreatedTrabalhoReadsBack(input: Fields, id: string, created: Timestamp, updated: Timestamp)
    ensures var rec := NormalizeTrabalho(DocSnap(id, MergeWrite(map[], CreateTrabalhoPayload(input, created, updated))));
      && NullDefaulted(rec, input, "duracaoEsperadaMin") && NullDefaulted(rec, input, "duracaoEfetivaMin")
      && NullDefaulted(rec, input, "data") && NullDefaulted(rec, input, "horarioInicio")
      && rec["createdAt"] == Stamp(created) && rec["updatedAt"] == Stamp(updated)
      && (Get(input, "id") == Undefined ==> rec["id"] == Str(id))
  {
    var p := CreateTrabalhoPayload(input, created, updated);
    var stored := MergeWrite(map[], p);
    var d := DocSnap(id, stored);
    StoredKeepsDefault(p, input, "duracaoEsperadaMin");
    StoredKeepsDefault(p, input, "duracaoEfetivaMin");
    StoredKeepsDefault(p, input, "data");
    StoredKeepsDefault(p, input, "horarioInicio");
    ReadKeepsDefault(d, input, "duracaoEsperadaMin");
    ReadKeepsDefault(d, input, "duracaoEfetivaMin");
    ReadKeepsDefault(d, input, "data");
    ReadKeepsDefault(d, input, "horarioInicio");
    if Get(input, "id") == Undefined {
      assert Get(p, "id") == Undefined;
    }
  }

  /** A field the input of `createTrabalho` does not set (other than the id,
      the four defaulted fields and the timestamps) is missing from the
      record read back. */
  lemma CreatedTrabalhoOmits(input: Fields, id: string, created: Timestamp, updated: Timestamp, k: string)
    requires k != "id" && k != "duracaoEsperadaMin" && k != "duracaoEfetivaMin" && k != "data"
    requires k != "horarioInicio" && k != "createdAt" && k != "updatedAt"
    requires Get(input, k) == Undefined
    ensures Get(NormalizeTrabalho(DocSnap(id, MergeWrite(map[], CreateTrabalhoPayload(input, created, updated)))), k) == Undefined
  {
    var p := CreateTrabalhoPayload(input, created, updated);
    assert Get(p, k) == Undefined;
    var stored := MergeWrite(map[], p);
    assert k !in stored;
  }
}
