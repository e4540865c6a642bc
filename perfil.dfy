/** `frontend/src/pages/PerfilPage.tsx`, without the rendering: the form
    state and its transitions (loading a stored profile, ticking the
    "fardado" box), the payload `mutationFn` builds from the form, which
    enforces "sponsor implies robed, not robed means no robing fields", the
    comma-separated lists, and the avatar choice. */
module Perfil {
  import opened Text
  import opened Js
  import opened Firestore
  import opened Usuarios
  import opened Trabalhos

  /** The signed-in Firebase user, as far as the page reads it (`null`
      strings are `None`). */
  datatype AuthUser = AuthUser(uid: string, email: Option<string>, displayName: Option<string>, photoURL: Option<string>)

  /** `o || ''` for a string that may be `null`. */
  function UserText(o: Option<string>): string {
    if o.Some? then o.value else ""
  }

  /** The page's `form` state: `initialForm` and every value `setForm` gives it. */
  datatype Form = Form(
    displayName: string,
    email: string,
    phone: string,
    avatarUrl: string,
    cidade: string,
    estado: string,
    pais: string,
    igrejaAtualId: string,
    igrejaAtualNome: string,
    igrejaOrigemNome: string,
    fardado: bool,
    fardamentoData: string,
    fardamentoLocal: string,
    fardamentoIgrejaId: string,
    fardamentoIgrejaNome: string,
    fardadorNome: string,
    fardadoComQuem: string,
    padrinhoMadrinha: bool,
    padrinhoIgrejasIds: seq<string>,
    padrinhoIgrejasTexto: string,
    papeisTexto: string,
    observacoes: string)

  const InitialForm: Form := Form("", "", "", "", "", "", "", "", "", "", false,
    "", "", "", "", "", "", false, [], "", "", "")

  // ------------------------------------------------------- comma-separated lists

  /** A list that survives being joined with ", " and split again: no empty,
      untrimmed or comma-holding element. */
  predicate Clean(xs: seq<string>) {
    forall i :: 0 <= i < |xs| ==> xs[i] != "" && IsTrimmed(xs[i]) && ',' !in xs[i]
  }

  /** `xs.map(s => s.trim())` */
  function TrimAll(xs: seq<string>): (r: seq<string>)
    ensures |r| == |xs| && forall i :: 0 <= i < |xs| ==> r[i] == Trim(xs[i])
    decreases |xs|
  {
    if xs == [] then [] else [Trim(xs[0])] + TrimAll(xs[1..])
  }

  lemma TrimAllConcat(xs: seq<string>, ys: seq<string>)
    ensures TrimAll(xs + ys) == TrimAll(xs) + TrimAll(ys)
  {
    var l, r := TrimAll(xs + ys), TrimAll(xs) + TrimAll(ys);
    assert |l| == |r|;
    forall i | 0 <= i < |l| ensures l[i] == r[i] {
      if i < |xs| {
        calc {
          l[i];
          Trim((xs + ys)[i]);
          { assert (xs + ys)[i] == xs[i]; }
          Trim(xs[i]);
          TrimAll(xs)[i];
          r[i];
        }
      } else {
        calc {
          l[i];
          Trim((xs + ys)[i]);
          { assert (xs + ys)[i] == ys[i - |xs|]; }
          Trim(ys[i - |xs|]);
          TrimAll(ys)[i - |xs|];
          r[i];
        }
      }
    }
    assert l == r;
  }

  /** `text.split(',').map(s => s.trim()).filter(Boolean)`: the pieces between
      commas, trimmed, without the empty ones; the result is always clean. */
  function ParseList(text: string): (r: seq<string>)
    ensures Clean(r)
  {
    var pieces := Split(text, ',');
    var trimmed := TrimAll(pieces);
    var r := FilterNonEmpty(trimmed);
    assert Clean(r) by {
      forall i | 0 <= i < |r| ensures r[i] != "" && IsTrimmed(r[i]) && ',' !in r[i] {
        var j :| 0 <= j < |trimmed| && trimmed[j] == r[i];
        TrimExcludes(pieces[j], ',');
      }
    }
    r
  }

  /** Order and duplicates are kept: a comma splits the list into the lists
      of its two sides. */
  lemma ParseListConcat(a: string, b: string)
    ensures ParseList(a + [','] + b) == ParseList(a) + ParseList(b)
  {
    SplitConcat(a, b, ',');
    var pa, pb := Split(a, ','), Split(b, ',');
    TrimAllConcat(pa, pb);
    FilterNonEmptyConcat(TrimAll(pa), TrimAll(pb));
  }

  /** A text without commas gives its trimmed self, or nothing when that is empty. */
  lemma ParseListSingle(x: string)
    requires ',' !in x
    ensures ParseList(x) == if Trim(x) == "" then [] else [Trim(x)]
  {
    SplitNone(x, ',');
    assert TrimAll([x]) == [Trim(x)];
  }

  /** A leading space on the text makes no difference. */
  lemma ParseListLeadingSpace(s: string)
    ensures ParseList([' '] + s) == ParseList(s)
  {
    var p := Split(s, ',');
    SplitCons(' ', s, ',');
    TrimLeadingSpace(' ', p[0]);
    assert TrimAll(Split([' '] + s, ',')) == TrimAll(p);
  }

  /** A space after a comma makes no difference: ", " and "," separate alike. */
  lemma ParseListSpaceAfterComma(a: string, b: string)
    ensures ParseList(a + ", " + b) == ParseList(a + "," + b)
  {
    assert a + ", " + b == a + [','] + ([' '] + b);
    assert a + "," + b == a + [','] + b;
    ParseListConcat(a, [' '] + b);
    ParseListConcat(a, b);
    ParseListLeadingSpace(b);
  }

  /** Joining with ", " puts a comma and a space between the first element and the rest. */
  lemma JoinCommaSpace(xs: seq<string>)
    requires |xs| >= 2
    ensures Join(xs, ", ") == xs[0] + [','] + ([' '] + Join(xs[1..], ", "))
  {
  }

  /** A clean first element followed by a comma and a space is parsed back as itself. */
  lemma ParseListCons(x: string, rest: string)
    requires x != "" && IsTrimmed(x) && ',' !in x
    ensures ParseList(x + [','] + ([' '] + rest)) == [x] + ParseList(rest)
  {
    assert ParseList(x) == [x] by {
      ParseListSingle(x);
      TrimmedIsFixed(x);
    }
    assert ParseList([' '] + rest) == ParseList(rest) by {
      ParseListLeadingSpace(rest);
    }
    ParseListConcat(x, [' '] + rest);
  }

  /** Loading joins a stored list with ", " and saving splits it again: a
      clean list comes back unchanged. */
  lemma {:induction false} ListRoundTrip(xs: seq<string>)
    requires Clean(xs)
    ensures ParseList(Join(xs, ", ")) == xs
    decreases |xs|
  {
    if |xs| == 0 {
      ParseListSingle("");
    } else if |xs| == 1 {
      ParseListSingle(xs[0]);
      TrimmedIsFixed(xs[0]);
    } else {
      assert Clean(xs[1..]) by {
        forall i | 0 <= i < |xs[1..]| ensures xs[1..][i] != "" && IsTrimmed(xs[1..][i]) && ',' !in xs[1..][i] {
          assert xs[1..][i] == xs[i + 1];
        }
      }
      ListRoundTrip(xs[1..]);
      JoinCommaSpace(xs);
      ParseListCons(xs[0], Join(xs[1..], ", "));
      assert xs == [xs[0]] + xs[1..];
    }
  }

  /** Splitting is stable: joining a parsed list and parsing it again gives
      the same list, so saving twice writes the same list. */
  lemma ParseListStable(text: string)
    ensures ParseList(Join(ParseList(text), ", ")) == ParseList(text)
  {
    ListRoundTrip(ParseList(text));
  }

  // -------------------------------------------------------------- the payload

  /** The six robing fields, present only on a robed ("fardado") profile. */
  const RobingKeys: set<string> := {"fardamentoData", "fardamentoLocal", "fardamentoIgrejaId",
    "fardamentoIgrejaNome", "fardadorNome", "fardadoComQuem"}

  /** The two sponsor fields, present only on a sponsor ("padrinho/madrinha"). */
  const SponsorKeys: set<string> := {"padrinhoIgrejasIds", "padrinhoIgrejasNomes"}

  /** The object literal `mutationFn` hands to `upsertUsuario` (a
      `Partial<UsuarioPerfil>`), one field per key in the order written. */
  datatype Payload = Payload(
    uid: Value,
    displayName: Value,
    email: Value,
    phone: Value,
    avatarUrl: Value,
    cidade: Value,
    estado: Value,
    pais: Value,
    igrejaAtualId: Value,
    igrejaAtualNome: Value,
    igrejaOrigemNome: Value,
    fardado: Value,
    fardamentoData: Value,
    fardamentoLocal: Value,
    fardamentoIgrejaId: Value,
    fardamentoIgrejaNome: Value,
    fardadorNome: Value,
    fardadoComQuem: Value,
    padrinhoMadrinha: Value,
    padrinhoIgrejasIds: Value,
    padrinhoIgrejasNomes: Value,
    papeisDoutrina: Value,
    observacoes: Value)

  /** No robing field is set. */
  predicate NoRobing(p: Payload) {
    && p.fardamentoData == Undefined && p.fardamentoLocal == Undefined
    && p.fardamentoIgrejaId == Undefined && p.fardamentoIgrejaNome == Undefined
    && p.fardadorNome == Undefined && p.fardadoComQuem == Undefined
  }

  /** No sponsor field is set. */
  predicate NoSponsor(p: Payload) {
    p.padrinhoIgrejasIds == Undefined && p.padrinhoIgrejasNomes == Undefined
  }

  /** The conditional-field invariant: a sponsor is robed, a profile that is
      not robed has no robing field, and one that is not a sponsor has no
      sponsor field. */
  predicate Gated(p: Payload) {
    && (p.padrinhoMadrinha == Bool(true) ==> p.fardado == Bool(true))
    && (p.fardado != Bool(true) ==> NoRobing(p))
    && (p.padrinhoMadrinha != Bool(true) ==> NoSponsor(p))
  }

  /** A text written as `s || undefined` is never the empty string. */
  predicate NonEmptyText(v: Value) {
    v == Undefined || (v.Str? && v.s != "")
  }

  /** No field of the payload holds an empty text. */
  predicate NoEmptyTexts(p: Payload) {
    && NonEmptyText(p.displayName) && NonEmptyText(p.email) && NonEmptyText(p.phone)
    && NonEmptyText(p.avatarUrl) && NonEmptyText(p.cidade) && NonEmptyText(p.estado)
    && NonEmptyText(p.pais) && NonEmptyText(p.igrejaAtualId) && NonEmptyText(p.igrejaAtualNome)
    && NonEmptyText(p.igrejaOrigemNome) && NonEmptyText(p.observacoes)
    && NonEmptyText(p.fardamentoData) && NonEmptyText(p.fardamentoLocal)
    && NonEmptyText(p.fardamentoIgrejaId) && NonEmptyText(p.fardamentoIgrejaNome)
    && NonEmptyText(p.fardadorNome) && NonEmptyText(p.fardadoComQuem)
  }

  /** How the free texts of the form are written: each in the field of
      the same name, an empty text as `undefined`. */
  predicate WritesTexts(p: Payload, f: Form) {
    && p.displayName == TextOrUndefined(f.displayName)
    && p.phone == TextOrUndefined(f.phone)
    && p.avatarUrl == TextOrUndefined(f.avatarUrl)
    && p.cidade == TextOrUndefined(f.cidade)
    && p.estado == TextOrUndefined(f.estado)
    && p.pais == TextOrUndefined(f.pais)
    && p.igrejaAtualId == TextOrUndefined(f.igrejaAtualId)
    && p.igrejaAtualNome == TextOrUndefined(f.igrejaAtualNome)
    && p.igrejaOrigemNome == TextOrUndefined(f.igrejaOrigemNome)
    && p.observacoes == TextOrUndefined(f.observacoes)
  }

  /** How the robing texts of the form are written, in the same way. */
  predicate WritesRobing(p: Payload, f: Form) {
    && p.fardamentoData == TextOrUndefined(f.fardamentoData)
    && p.fardamentoLocal == TextOrUndefined(f.fardamentoLocal)
    && p.fardamentoIgrejaId == TextOrUndefined(f.fardamentoIgrejaId)
    && p.fardamentoIgrejaNome == TextOrUndefined(f.fardamentoIgrejaNome)
    && p.fardadorNome == TextOrUndefined(f.fardadorNome)
    && p.fardadoComQuem == TextOrUndefined(f.fardadoComQuem)
  }

  /** The payload shaped from the form, the signed-in user and the two lists
      already parsed from their comma-separated texts. The sponsor flag is
      `fardado && padrinhoMadrinha`, so the result keeps the
      conditional-field invariant whatever the form holds; a robed form's
      robing texts are written even when it is not a sponsor; no text is
      written empty; the email falls back to the account's; empty church
      ids are dropped and an empty role list is not written. */
  function PayloadOf(f: Form, u: AuthUser, nomes: seq<string>, papeis: seq<string>): (r: Payload)
    ensures Gated(r) && NoEmptyTexts(r)
    ensures r.uid == Str(u.uid)
    ensures r.fardado == Bool(f.fardado)
    ensures r.padrinhoMadrinha == Bool(f.fardado && f.padrinhoMadrinha)
    ensures WritesTexts(r, f)
    ensures f.fardado ==> WritesRobing(r, f)
    ensures r.email == if f.email != "" then Str(f.email) else TextOrUndefined(UserText(u.email))
    ensures f.fardado && f.padrinhoMadrinha ==>
      && r.padrinhoIgrejasIds == List(Strs(FilterNonEmpty(f.padrinhoIgrejasIds)))
      && r.padrinhoIgrejasNomes == List(Strs(nomes))
    ensures r.papeisDoutrina == Undefined <==> papeis == []
    ensures papeis != [] ==> r.papeisDoutrina == List(Strs(papeis))
  {
    var isFardado := f.fardado;
    var isPadrinho := isFardado && f.padrinhoMadrinha;
    Payload(
      uid := Str(u.uid),
      displayName := TextOrUndefined(f.displayName),
      email := if f.email != "" then Str(f.email) else TextOrUndefined(UserText(u.email)),
      phone := TextOrUndefined(f.phone),
      avatarUrl := TextOrUndefined(f.avatarUrl),
      cidade := TextOrUndefined(f.cidade),
      estado := TextOrUndefined(f.estado),
      pais := TextOrUndefined(f.pais),
      igrejaAtualId := TextOrUndefined(f.igrejaAtualId),
      igrejaAtualNome := TextOrUndefined(f.igrejaAtualNome),
      igrejaOrigemNome := TextOrUndefined(f.igrejaOrigemNome),
      fardado := Bool(isFardado),
      fardamentoData := if isFardado then TextOrUndefined(f.fardamentoData) else Undefined,
      fardamentoLocal := if isFardado then TextOrUndefined(f.fardamentoLocal) else Undefined,
      fardamentoIgrejaId := if isFardado then TextOrUndefined(f.fardamentoIgrejaId) else Undefined,
      fardamentoIgrejaNome := if isFardado then TextOrUndefined(f.fardamentoIgrejaNome) else Undefined,
      fardadorNome := if isFardado then TextOrUndefined(f.fardadorNome) else Undefined,
      fardadoComQuem := if isFardado then TextOrUndefined(f.fardadoComQuem) else Undefined,
      padrinhoMadrinha := Bool(isPadrinho),
      padrinhoIgrejasIds := if isPadrinho then List(Strs(FilterNonEmpty(f.padrinhoIgrejasIds))) else Undefined,
      padrinhoIgrejasNomes := if isPadrinho then List(Strs(nomes)) else Undefined,
      papeisDoutrina := if |papeis| > 0 then List(Strs(papeis)) else Undefined,
      observacoes := TextOrUndefined(f.observacoes))
  }

  /** The 23 keys of the payload object. */
  const PayloadKeys: set<string> := {"uid", "displayName", "email", "phone", "avatarUrl", "cidade",
    "estado", "pais", "igrejaAtualId", "igrejaAtualNome", "igrejaOrigemNome", "fardado",
    "padrinhoMadrinha", "papeisDoutrina", "observacoes"} + RobingKeys + SponsorKeys

  /** The payload as the key-value object the store receives: each field
      under the key of the same name, and no other key. The identity, the
      flags and the gated fields are stated here; the key set and each of
      the other twelve keys by a lemma of its own below. */
  function AsFields(p: Payload): (r: Fields)
    ensures Get(r, "uid") == p.uid
    ensures Get(r, "fardado") == p.fardado
    ensures Get(r, "padrinhoMadrinha") == p.padrinhoMadrinha
    ensures Get(r, "fardamentoData") == p.fardamentoData
    ensures Get(r, "fardamentoLocal") == p.fardamentoLocal
    ensures Get(r, "fardamentoIgrejaId") == p.fardamentoIgrejaId
    ensures Get(r, "fardamentoIgrejaNome") == p.fardamentoIgrejaNome
    ensures Get(r, "fardadorNome") == p.fardadorNome
    ensures Get(r, "fardadoComQuem") == p.fardadoComQuem
    ensures Get(r, "padrinhoIgrejasIds") == p.padrinhoIgrejasIds
    ensures Get(r, "padrinhoIgrejasNomes") == p.padrinhoIgrejasNomes
  {
    map[
      "uid" := p.uid,
      "displayName" := p.displayName,
      "email" := p.email,
      "phone" := p.phone,
      "avatarUrl" := p.avatarUrl,
      "cidade" := p.cidade,
      "estado" := p.estado,
      "pais" := p.pais,
      "igrejaAtualId" := p.igrejaAtualId,
      "igrejaAtualNome" := p.igrejaAtualNome,
      "igrejaOrigemNome" := p.igrejaOrigemNome,
      "fardado" := p.fardado,
      "fardamentoData" := p.fardamentoData,
      "fardamentoLocal" := p.fardamentoLocal,
      "fardamentoIgrejaId" := p.fardamentoIgrejaId,
      "fardamentoIgrejaNome" := p.fardamentoIgrejaNome,
      "fardadorNome" := p.fardadorNome,
      "fardadoComQuem" := p.fardadoComQuem,
      "padrinhoMadrinha" := p.padrinhoMadrinha,
      "padrinhoIgrejasIds" := p.padrinhoIgrejasIds,
      "padrinhoIgrejasNomes" := p.padrinhoIgrejasNomes,
      "papeisDoutrina" := p.papeisDoutrina,
      "observacoes" := p.observacoes]
  }

  /** The object has exactly the 23 keys of the payload, `undefined` ones included. */
  lemma AsFieldsKeys(p: Payload)
    ensures AsFields(p).Keys == PayloadKeys
  {
  }

  lemma AsFieldsDisplayName(p: Payload)
    ensures Get(AsFields(p), "displayName") == p.displayName
  {
  }

  lemma AsFieldsEmail(p: Payload)
    ensures Get(AsFields(p), "email") == p.email
  {
  }

  lemma AsFieldsPhone(p: Payload)
    ensures Get(AsFields(p), "phone") == p.phone
  {
  }

  lemma AsFieldsAvatarUrl(p: Payload)
    ensures Get(AsFields(p), "avatarUrl") == p.avatarUrl
  {
  }

  lemma AsFieldsCidade(p: Payload)
    ensures Get(AsFields(p), "cidade") == p.cidade
  {
  }

  lemma AsFieldsEstado(p: Payload)
    ensures Get(AsFields(p), "estado") == p.estado
  {
  }

  lemma AsFieldsPais(p: Payload)
    ensures Get(AsFields(p), "pais") == p.pais
  {
  }

  lemma AsFieldsIgrejaAtualId(p: Payload)
    ensures Get(AsFields(p), "igrejaAtualId") == p.igrejaAtualId
  {
  }

  lemma AsFieldsIgrejaAtualNome(p: Payload)
    ensures Get(AsFields(p), "igrejaAtualNome") == p.igrejaAtualNome
  {
  }

  lemma AsFieldsIgrejaOrigemNome(p: Payload)
    ensures Get(AsFields(p), "igrejaOrigemNome") == p.igrejaOrigemNome
  {
  }

  lemma AsFieldsPapeisDoutrina(p: Payload)
    ensures Get(AsFields(p), "papeisDoutrina") == p.papeisDoutrina
  {
  }

  lemma AsFieldsObservacoes(p: Payload)
    ensures Get(AsFields(p), "observacoes") == p.observacoes
  {
  }

  /** The payload `mutationFn` builds: both lists are split at commas,
      trimmed and stripped of empty entries before the object is shaped, so
      what it writes for them is a clean list. */
  function BuildPayload(f: Form, u: AuthUser): (r: Payload)
    ensures Gated(r)
    ensures r.fardado == Bool(f.fardado)
    ensures r.padrinhoMadrinha == Bool(f.fardado && f.padrinhoMadrinha)
    ensures f.fardado && f.padrinhoMadrinha ==>
      r.padrinhoIgrejasNomes == List(Strs(ParseList(f.padrinhoIgrejasTexto)))
    ensures r.papeisDoutrina ==
      if ParseList(f.papeisTexto) == [] then Undefined else List(Strs(ParseList(f.papeisTexto)))
  {
    PayloadOf(f, u, ParseList(f.padrinhoIgrejasTexto), ParseList(f.papeisTexto))
  }

  /** `mutationFn`: without a signed-in user it fails with "Sessão expirada"
      and builds nothing; otherwise it yields the payload for that user. */
  function SavePayload(f: Form, user: Option<AuthUser>): (r: Result<Payload>)
    ensures r.Err? <==> user.None?
    ensures r.Err? ==> r.message == "Sessão expirada"
    ensures r.Ok? ==> Gated(r.value) && r.value.uid == Str(user.value.uid)
    ensures r.Ok? ==> r.value == BuildPayload(f, user.value)
  {
    match user
    case None => Err("Sessão expirada")
    case Some(u) => Ok(BuildPayload(f, u))
  }

  // ----------------------------------------------------------------- loading

  /** The stored text fields the loader reads. */
  const StoredTextKeys: set<string> := {"displayName", "email", "phone", "avatarUrl", "cidade", "estado",
    "pais", "igrejaAtualId", "igrejaAtualNome", "igrejaOrigemNome", "observacoes"} + RobingKeys

  /** The stored array fields the loader reads. */
  const StoredListKeys: set<string> := {"papeisDoutrina"} + SponsorKeys

  /** A stored profile whose fields read by the loader have the types that
      `UsuarioPerfil` declares, or are `null`. */
  predicate ProfileShaped(data: Fields) {
    && (forall k :: k in StoredTextKeys ==> TextLike(Get(data, k)))
    && (Get(data, "fardado").Undefined? || Get(data, "fardado").Null? || Get(data, "fardado").Bool?)
    && (Get(data, "padrinhoMadrinha").Undefined? || Get(data, "padrinhoMadrinha").Null? || Get(data, "padrinhoMadrinha").Bool?)
    && (forall k :: k in StoredListKeys ==> TextListLike(Get(data, k)))
  }

  /** What `fetchUsuario` hands the loader: nothing, or a well-typed profile. */
  predicate Loadable(data: Option<Fields>) {
    data.Some? ==> ProfileShaped(data.value)
  }

  /** `data?.k || ''` on a text field. */
  function StoredText(data: Option<Fields>, k: string): string {
    if data.Some? && Get(data.value, k).Str? then Get(data.value, k).s else ""
  }

  /** `data?.k || false` on a flag. */
  function StoredFlag(data: Option<Fields>, k: string): bool {
    data.Some? && Get(data.value, k) == Bool(true)
  }

  /** `data?.k || []` on an array of strings. */
  function StoredList(data: Option<Fields>, k: string): seq<string>
    requires Loadable(data) && k in StoredListKeys
  {
    if data.Some? && Get(data.value, k).List? then Texts(Get(data.value, k).items) else []
  }

  /** The free texts of the form taken from the stored fields of the same
      name (all but the display name, which has a fallback). */
  predicate ReadsTexts(f: Form, data: Option<Fields>) {
    && f.phone == StoredText(data, "phone")
    && f.avatarUrl == StoredText(data, "avatarUrl")
    && f.cidade == StoredText(data, "cidade")
    && f.estado == StoredText(data, "estado")
    && f.pais == StoredText(data, "pais")
    && f.igrejaAtualId == StoredText(data, "igrejaAtualId")
    && f.igrejaAtualNome == StoredText(data, "igrejaAtualNome")
    && f.igrejaOrigemNome == StoredText(data, "igrejaOrigemNome")
    && f.observacoes == StoredText(data, "observacoes")
  }

  /** The robing texts of the form taken from the stored fields of the same name. */
  predicate ReadsRobing(f: Form, data: Option<Fields>) {
    && f.fardamentoData == StoredText(data, "fardamentoData")
    && f.fardamentoLocal == StoredText(data, "fardamentoLocal")
    && f.fardamentoIgrejaId == StoredText(data, "fardamentoIgrejaId")
    && f.fardamentoIgrejaNome == StoredText(data, "fardamentoIgrejaNome")
    && f.fardadorNome == StoredText(data, "fardadorNome")
    && f.fardadoComQuem == StoredText(data, "fardadoComQuem")
  }

  /** The conditional-field invariant as it reads on a stored profile. */
  predicate DocGated(d: Fields) {
    && (Get(d, "padrinhoMadrinha") == Bool(true) ==> Get(d, "fardado") == Bool(true))
    && (Get(d, "fardado") != Bool(true) ==> forall k :: k in RobingKeys ==> Get(d, k) == Undefined)
    && (Get(d, "padrinhoMadrinha") != Bool(true) ==> forall k :: k in SponsorKeys ==> Get(d, k) == Undefined)
  }

  /** The form-side invariant: a sponsor is robed, and a form that is not
      robed holds no sponsor churches. */
  predicate FormGated(f: Form) {
    && (f.padrinhoMadrinha ==> f.fardado)
    && (!f.fardado ==> f.padrinhoIgrejasIds == [] && f.padrinhoIgrejasTexto == "")
  }

  /** The form the loading effect sets from the fetched profile (`None`
      when there is none or it is not loaded yet) and the signed-in user.
      Every field is replaced; the display name falls back to the account's
      and the account's email wins over the stored one; the stored lists are
      joined with ", ". A stored profile that keeps the conditional-field
      invariant loads into a form that keeps it. */
  function LoadForm(data: Option<Fields>, u: AuthUser): (r: Form)
    requires Loadable(data)
    ensures r.displayName == if StoredText(data, "displayName") != "" then StoredText(data, "displayName")
                             else UserText(u.displayName)
    ensures r.email == if UserText(u.email) != "" then UserText(u.email) else StoredText(data, "email")
    ensures ReadsTexts(r, data) && ReadsRobing(r, data)
    ensures r.fardado == StoredFlag(data, "fardado")
    ensures r.padrinhoMadrinha == StoredFlag(data, "padrinhoMadrinha")
    ensures r.padrinhoIgrejasIds == StoredList(data, "padrinhoIgrejasIds")
    ensures r.padrinhoIgrejasTexto == Join(StoredList(data, "padrinhoIgrejasNomes"), ", ")
    ensures r.papeisTexto == Join(StoredList(data, "papeisDoutrina"), ", ")
    ensures data.Some? && DocGated(data.value) ==> FormGated(r)
  {
    var name := StoredText(data, "displayName");
    var mail := UserText(u.email);
    Form(
      if name != "" then name else UserText(u.displayName),
      if mail != "" then mail else StoredText(data, "email"),
      StoredText(data, "phone"),
      StoredText(data, "avatarUrl"),
      StoredText(data, "cidade"),
      StoredText(data, "estado"),
      StoredText(data, "pais"),
      StoredText(data, "igrejaAtualId"),
      StoredText(data, "igrejaAtualNome"),
      StoredText(data, "igrejaOrigemNome"),
      StoredFlag(data, "fardado"),
      StoredText(data, "fardamentoData"),
      StoredText(data, "fardamentoLocal"),
      StoredText(data, "fardamentoIgrejaId"),
      StoredText(data, "fardamentoIgrejaNome"),
      StoredText(data, "fardadorNome"),
      StoredText(data, "fardadoComQuem"),
      StoredFlag(data, "padrinhoMadrinha"),
      StoredList(data, "padrinhoIgrejasIds"),
      Join(StoredList(data, "padrinhoIgrejasNomes"), ", "),
      Join(StoredList(data, "papeisDoutrina"), ", "),
      StoredText(data, "observacoes"))
  }

  // ------------------------------------------------------------------ avatar

  const AvatarService: string := "https://ui-avatars.com/api/?name="
  const AvatarColours: string := "&background=1e293b&color=fff"

  /** `name || email || '?'`: never empty. */
  function AvatarName(name: string, email: string): (r: string)
    ensures r != ""
    ensures name != "" ==> r == name
    ensures name == "" && email != "" ==> r == email
    ensures name == "" && email == "" ==> r == "?"
  {
    if name != "" then name else if email != "" then email else "?"
  }

  /** The avatar shown: the form's URL if any, else the account photo, else
      the generated image for the name (or email, or "?"); `encode` stands
      for `encodeURIComponent`. */
  function Avatar(f: Form, user: Option<AuthUser>, encode: string -> string): (r: string)
    ensures r != ""
    ensures f.avatarUrl != "" ==> r == f.avatarUrl
    ensures f.avatarUrl == "" && user.Some? && UserText(user.value.photoURL) != "" ==>
      r == user.value.photoURL.value
    ensures f.avatarUrl == "" && (user.None? || UserText(user.value.photoURL) == "") ==>
      r == AvatarService + encode(AvatarName(f.displayName, f.email)) + AvatarColours
  {
    if f.avatarUrl != "" then f.avatarUrl
    else if user.Some? && UserText(user.value.photoURL) != "" then user.value.photoURL.value
    else AvatarService + encode(AvatarName(f.displayName, f.email)) + AvatarColours
  }

  // ------------------------------------------------------------- the page

  /** `igrejas.find(i => i.id === id)`: the first church with that id. */
  function FindIgreja(igrejas: seq<IgrejaInfo>, id: string): (r: Option<IgrejaInfo>)
    ensures r.Some? ==> r.value in igrejas && r.value.id == id
    ensures r.None? <==> forall i :: 0 <= i < |igrejas| ==> igrejas[i].id != id
    ensures r.Some? ==> exists i :: (0 <= i < |igrejas| && igrejas[i] == r.value &&
      forall j :: 0 <= j < i ==> igrejas[j].id != id)
    decreases |igrejas|
  {
    if igrejas == [] then None
    else if igrejas[0].id == id then Some(igrejas[0])
    else
      var r := FindIgreja(igrejas[1..], id);
      if r.Some? then
        var i :| 0 <= i < |igrejas[1..]| && igrejas[1..][i] == r.value &&
          forall j :: 0 <= j < i ==> igrejas[1..][j].id != id;
        assert igrejas[i + 1] == r.value;
        r
      else r
  }

  /** `found?.nome ?? ''` for a church list whose names are strings. */
  function ChosenName(found: Option<IgrejaInfo>): (r: string)
    requires found.Some? ==> found.value.nome.Str?
    ensures found.None? ==> r == ""
    ensures found.Some? ==> Str(r) == found.value.nome
  {
    if found.Some? then found.value.nome.s else ""
  }

  /** The page's `form` state cell; each method is one `setForm` call or the
      save. */
  class ProfileEditor {
    var form: Form

    constructor ()
      ensures form == InitialForm
      ensures FormGated(form)
    {
      form := InitialForm;
    }

    /** The loading effect: nothing happens without a signed-in user. */
    method Load(data: Option<Fields>, user: Option<AuthUser>)
      requires Loadable(data)
      modifies this
      ensures user.None? ==> form == old(form)
      ensures user.Some? ==> form == LoadForm(data, user.value)
    {
      if user.Some? {
        form := LoadForm(data, user.value);
      }
    }

    /** Ticking or unticking the "fardado" box. Unticking also clears the
        sponsor flag, the sponsor churches and their text; ticking leaves
        them; nothing else changes, the robing texts included. Unticking
        establishes the form invariant and ticking keeps it. */
    method SetFardado(checked: bool)
      modifies this
      ensures form == old(form).(
        fardado := checked,
        padrinhoMadrinha := if checked then old(form).padrinhoMadrinha else false,
        padrinhoIgrejasIds := if checked then old(form).padrinhoIgrejasIds else [],
        padrinhoIgrejasTexto := if checked then old(form).padrinhoIgrejasTexto else "")
      ensures !checked ==> FormGated(form)
      ensures FormGated(old(form)) ==> FormGated(form)
    {
      var f := form;
      form := f.(
        fardado := checked,
        padrinhoMadrinha := if checked then f.padrinhoMadrinha else false,
        padrinhoIgrejasIds := if checked then f.padrinhoIgrejasIds else [],
        padrinhoIgrejasTexto := if checked then f.padrinhoIgrejasTexto else "");
    }

    /** Ticking the sponsor box, which the page enables only on a robed form. */
    method SetPadrinho(checked: bool)
      requires form.fardado
      modifies this
      ensures form == old(form).(padrinhoMadrinha := checked)
      ensures FormGated(old(form)) ==> FormGated(form)
    {
      form := form.(padrinhoMadrinha := checked);
    }

    /** Choosing the current church in the list: its id, and its name or ''
        when the id is not in the list (the empty option). */
    method SelectIgrejaAtual(id: string, igrejas: seq<IgrejaInfo>)
      requires forall i :: 0 <= i < |igrejas| ==> igrejas[i].nome.Str?
      modifies this
      ensures form == old(form).(igrejaAtualId := id, igrejaAtualNome := ChosenName(FindIgreja(igrejas, id)))
    {
      var found := FindIgreja(igrejas, id);
      form := form.(igrejaAtualId := id, igrejaAtualNome := ChosenName(found));
    }

    /** Choosing the church of the robing, in the same way. */
    method SelectIgrejaFardamento(id: string, igrejas: seq<IgrejaInfo>)
      requires forall i :: 0 <= i < |igrejas| ==> igrejas[i].nome.Str?
      modifies this
      ensures form == old(form).(fardamentoIgrejaId := id, fardamentoIgrejaNome := ChosenName(FindIgreja(igrejas, id)))
    {
      var found := FindIgreja(igrejas, id);
      form := form.(fardamentoIgrejaId := id, fardamentoIgrejaNome := ChosenName(found));
    }

    /** Choosing the sponsor churches in the multiple select, which the page
        shows only on a robed sponsor's form; the invariant is kept. */
    method SelectPadrinhoIgrejas(selected: seq<string>)
      requires form.fardado && form.padrinhoMadrinha
      modifies this
      ensures form == old(form).(padrinhoIgrejasIds := selected)
      ensures FormGated(old(form)) ==> FormGated(form)
    {
      form := form.(padrinhoIgrejasIds := selected);
    }

    /** Typing the sponsor churches as free text, under the same condition. */
    method SetPadrinhoIgrejasTexto(text: string)
      requires form.fardado && form.padrinhoMadrinha
      modifies this
      ensures form == old(form).(padrinhoIgrejasTexto := text)
      ensures FormGated(old(form)) ==> FormGated(form)
    {
      form := form.(padrinhoIgrejasTexto := text);
    }

    /** "Usar foto do Google", shown only when the account has a photo: the
        form's avatar URL becomes that photo, which the avatar then shows. */
    method UseAccountPhoto(u: AuthUser, encode: string -> string)
      requires UserText(u.photoURL) != ""
      modifies this
      ensures form == old(form).(avatarUrl := UserText(u.photoURL))
      ensures Avatar(form, Some(u), encode) == u.photoURL.value
    {
      form := form.(avatarUrl := UserText(u.photoURL));
    }

    /** Submitting: `mutationFn` followed by `upsertUsuario` at the user's id.
        Without a user nothing is written. */
    method Save(user: Option<AuthUser>, store: UsuarioStore, updated: Timestamp, created: Timestamp) returns (r: Result<Payload>)
      modifies store
      ensures r == SavePayload(old(form), user)
      ensures r.Err? ==> store.docs == old(store.docs)
      ensures r.Ok? ==> (store.docs ==
        old(store.docs)[user.value.uid := Upserted(old(store.Lookup(user.value.uid)), user.value.uid, AsFields(r.value), updated, created)])
    {
      r := SavePayload(form, user);
      if r.Ok? {
        store.Upsert(user.value.uid, AsFields(r.value), updated, created);
      }
    }
  }

  // ------------------------------------------------- what a save leaves stored

  /** Whatever was stored before, a saved profile never holds the sponsor flag
      without the robed flag: both are always written. */
  lemma SavedSponsorIsRobed(stored: Option<Fields>, f: Form, u: AuthUser, updated: Timestamp, created: Timestamp)
    ensures var doc := Upserted(stored, u.uid, AsFields(BuildPayload(f, u)), updated, created);
      Get(doc, "padrinhoMadrinha") == Bool(true) ==> Get(doc, "fardado") == Bool(true)
  {
    var p := AsFields(BuildPayload(f, u));
    UpsertedField(stored, u.uid, p, updated, created, "padrinhoMadrinha");
    UpsertedField(stored, u.uid, p, updated, created, "fardado");
  }

  /** The merge write does not remove fields: saving a form that is not
      robed writes `fardado: false` but leaves every robing and sponsor field
      already stored in place. */
  lemma UnrobingKeepsStoredFields(stored: Fields, f: Form, u: AuthUser, updated: Timestamp, created: Timestamp)
    requires !f.fardado
    ensures var doc := Upserted(Some(stored), u.uid, AsFields(BuildPayload(f, u)), updated, created);
      Get(doc, "fardado") == Bool(false) && KeepsRobing(doc, stored) && KeepsSponsor(doc, stored)
  {
    var p := BuildPayload(f, u);
    UpsertedField(Some(stored), u.uid, AsFields(p), updated, created, "fardado");
    UnrobedPayloadFields(p);
    UpsertKeepsRobing(stored, u.uid, AsFields(p), updated, created);
    UpsertKeepsSponsor(stored, u.uid, AsFields(p), updated, created);
  }

  /** The object of a payload that is not robed carries no robing and no sponsor field. */
  lemma UnrobedPayloadFields(p: Payload)
    requires Gated(p) && p.fardado != Bool(true)
    ensures NoRobingFields(AsFields(p))
    ensures forall k :: k in SponsorKeys ==> Get(AsFields(p), k) == Undefined
  {
    var d := AsFields(p);
    assert Get(d, "fardamentoData") == Undefined && Get(d, "fardamentoLocal") == Undefined;
    assert Get(d, "fardamentoIgrejaId") == Undefined && Get(d, "fardamentoIgrejaNome") == Undefined;
    assert Get(d, "fardadorNome") == Undefined && Get(d, "fardadoComQuem") == Undefined;
    assert Get(d, "padrinhoIgrejasIds") == Undefined && Get(d, "padrinhoIgrejasNomes") == Undefined;
  }

  /** A stored field that is still there, unchanged. */
  predicate Kept(doc: Fields, stored: Fields, k: string) {
    k in stored ==> Get(doc, k) == stored[k]
  }

  /** Every robing field of `stored` is kept in `doc`. */
  predicate KeepsRobing(doc: Fields, stored: Fields) {
    forall k :: k in RobingKeys ==> Kept(doc, stored, k)
  }

  /** Both sponsor fields of `stored` are kept in `doc`. */
  predicate KeepsSponsor(doc: Fields, stored: Fields) {
    forall k :: k in SponsorKeys ==> Kept(doc, stored, k)
  }

  /** No robing field is set in a key-value object. */
  predicate NoRobingFields(d: Fields) {
    forall k :: k in RobingKeys ==> Get(d, k) == Undefined
  }

  /** An upsert whose data sets no robing field leaves the stored ones as they were. */
  lemma UpsertKeepsRobing(stored: Fields, uid: string, d: Fields, updated: Timestamp, created: Timestamp)
    requires NoRobingFields(d)
    ensures KeepsRobing(Upserted(Some(stored), uid, d, updated, created), stored)
  {
    forall k | k in RobingKeys ensures Kept(Upserted(Some(stored), uid, d, updated, created), stored, k) {
      assert k != "uid" && k != "updatedAt" && k != "createdAt";
      UpsertedField(Some(stored), uid, d, updated, created, k);
    }
  }

  /** An upsert whose data sets no sponsor field leaves the stored ones as they were. */
  lemma UpsertKeepsSponsor(stored: Fields, uid: string, d: Fields, updated: Timestamp, created: Timestamp)
    requires forall k :: k in SponsorKeys ==> Get(d, k) == Undefined
    ensures KeepsSponsor(Upserted(Some(stored), uid, d, updated, created), stored)
  {
    forall k | k in SponsorKeys ensures Kept(Upserted(Some(stored), uid, d, updated, created), stored, k) {
      UpsertedField(Some(stored), uid, d, updated, created, k);
    }
  }

  /** Un-robing a sponsor leaves a stored profile that breaks the invariant:
      a sponsor of one church saves a form that is not robed (the initial
      form, say), and the document keeps the church beside `fardado: false`. */
  lemma UnrobedSponsorKeepsChurches(f: Form, u: AuthUser, updated: Timestamp, created: Timestamp)
    requires !f.fardado
    ensures var stored := map["fardado" := Bool(true), "padrinhoMadrinha" := Bool(true),
                              "padrinhoIgrejasIds" := List([Str("c1")])];
      var doc := Upserted(Some(stored), u.uid, AsFields(BuildPayload(f, u)), updated, created);
      && Get(doc, "fardado") == Bool(false)
      && Get(doc, "padrinhoIgrejasIds") == List([Str("c1")])
      && !DocGated(doc)
  {
    var stored := map["fardado" := Bool(true), "padrinhoMadrinha" := Bool(true),
                      "padrinhoIgrejasIds" := List([Str("c1")])];
    var d := AsFields(BuildPayload(f, u));
    UpsertedField(Some(stored), u.uid, d, updated, created, "fardado");
    UpsertedField(Some(stored), u.uid, d, updated, created, "padrinhoMadrinha");
    UpsertedField(Some(stored), u.uid, d, updated, created, "padrinhoIgrejasIds");
    assert "padrinhoIgrejasIds" in SponsorKeys;
  }

  /** Reloading a stored profile that is not robed but still holds sponsor
      churches gives a form that breaks the form invariant. */
  lemma UngatedDocLoadsUngatedForm(data: Fields, u: AuthUser)
    requires ProfileShaped(data)
    requires Get(data, "fardado") != Bool(true)
    requires Get(data, "padrinhoIgrejasIds").List? && Get(data, "padrinhoIgrejasIds").items != []
    ensures !FormGated(LoadForm(Some(data), u))
  {
    assert StoredList(Some(data), "padrinhoIgrejasIds") != [];
  }
}
