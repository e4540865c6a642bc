# Record shaping for the Daime community app, in Dafny

The app keeps three Firestore collections that matter here:
- `trabalhos` holds ceremonies ("trabalhos").
- `igrejas` holds churches.
- `usuarios` holds member profiles.

It also reads a fourth, `bebidaLotes`, which holds batches of the sacramental drink.

This project models the layer between the database and the screens:
- how stored documents become the records the pages use;
- how user input becomes the payload written back;
- the profile page's form state and the rules it enforces;
- what the ceremony list shows for each record.

Modules:

- `Js` (`js.dfy`): JavaScript values, with the operators the code applies to them:
  - `||` and `??`;
  - optional property access;
  - `typeof … === 'number'`;
  - template interpolation.

  A plain object is a `map<string, Value>`. A key may be absent, or present and bound to `undefined`. An object spread is map union.
- `Text` (`text.dfy`): the string built-ins the code relies on:
  - `trim` and its white-space set;
  - `split` on one character;
  - `join`;
  - `filter(Boolean)` on strings;
  - `String(n)` for integers.
- `Firestore` (`firestore.dfy`): document snapshots, the outcome of a read, and what a merge write does to a stored document.
- `Trabalhos` (`trabalhos.dfy`, modelling `frontend/src/lib/trabalhos.ts`): the readers' mapping bodies and the create/update payloads for ceremonies and churches.
- `Usuarios` (`usuarios.dfy`, modelling `frontend/src/lib/usuarios.ts`): the profile readers, which force `uid` to the document id, and `upsertUsuario`. The store is the class `UsuarioStore`. `Upsert` is an imperative method, as in the source:
  1. It builds the payload.
  2. It adds `createdAt` only when nothing is stored yet.
  3. It merges the payload into the stored document.
- `Perfil` (`perfil.dfy`, modelling `frontend/src/pages/PerfilPage.tsx`):
  - The payload `mutationFn` builds. It enforces the profile invariant: a sponsor ("padrinho/madrinha") is robed ("fardado"), a profile that is not robed has no robing field, and one that is not a sponsor has no sponsor field.
  - The comma-separated lists, with their join/split round trip.
  - The avatar choice.
  - The form state as the class `ProfileEditor`, whose methods are the page's `setForm` updaters and the save.
- `TrabalhosPage` (`trabalhos_page.dfy`, modelling `frontend/src/pages/TrabalhosPage.tsx`):
  - `formatDate` and `formatTime`;
  - `totalParticipantes`;
  - the fallbacks and optional parts of each ceremony card;
  - the page's loading, error and empty states.

Every reading of the clock (`Timestamp.now()`) is a parameter. A creation reads the clock twice, so it gets two: `created` and `updated`. The pt-BR date and time formatting and `encodeURIComponent` are function parameters.

Behaviour of the code worth knowing:
- `totalParticipantes` ignores a stored `total` and always sums men, women and others (`TrabalhosPage.TotalsIgnoreOtherFields`).
- In `upsertUsuario`, a `uid` in the caller's data wins over the argument, because the spread comes after `uid`. On a first write the clock's `createdAt` is assigned after the spread and wins over one in the data. On a later call no `createdAt` is added, so a `createdAt` in the data overwrites the stored one.
- Saving a form that is not robed does not remove robing or sponsor fields already stored. The write is a merge and skips `undefined` (`Perfil.UnrobingKeepsStoredFields`). So the stored profile can hold a robing date with `fardado: false`. Reloading it fills the form from those fields, which is why `Perfil.LoadForm` promises the form invariant only for a stored profile that keeps it.
- A text cleared in the form is written as `undefined`, so the stored value stays.
- The ceremony list reads `local` and `igrejasResponsaveis`. `createTrabalho`'s input type has `localNome`, `localTexto` and `igrejasResponsaveisNomes` instead. So a ceremony created through it shows "Local a definir" and a dash for its churches (`TrabalhosPage.CreatedEventHasNoLocation`, `TrabalhosPage.CreatedEventHasNoChurches`).
- The start time is shown as a time only, with no date, and it is shown even when the date is missing or `null` (`TrabalhosPage.CreatedEventTimeWithoutDate`).
- Reloading a stored profile that is not robed but still holds sponsor churches gives a form that breaks the form invariant (`Perfil.UngatedDocLoadsUngatedForm`). A robed sponsor who saves a form that is not robed, such as the initial form, keeps its sponsor churches with `fardado: false` (`Perfil.UnrobedSponsorKeepsChurches`).

## Model

| member | source | states |
|---|---|---|
| Firestore.MergeWrite | frontend/src/lib/usuarios.ts:65 | a merge write keeps exactly the stored keys plus the payload's defined keys. A defined payload entry replaces the stored one, and a stored entry the payload leaves `undefined` or unnamed is unchanged |
| Text.Trim | frontend/src/lib/trabalhos.ts:196 | `trim` gives a result with no white space at either end, no longer than the input, and empty exactly when the input is all white space |
| Text.TrimSlice | frontend/src/lib/trabalhos.ts:196 | what `trim` keeps is one contiguous slice of the input, and everything dropped on either side is white space |
| Text.TrimExcludes | frontend/src/pages/PerfilPage.tsx:91 | `trim` adds no character: a character absent from the input, such as the comma a piece was split on, is absent from the result |
| Text.TrimmedIsFixed | frontend/src/pages/PerfilPage.tsx:91 | trimming a text with no white space at its ends returns it unchanged |
| Text.TrimLeadingSpace | frontend/src/pages/PerfilPage.tsx:91 | a leading space never changes the result of `trim` |
| Text.Split | frontend/src/pages/PerfilPage.tsx:90 | `split(',')` gives at least one piece, no piece holds a comma, and joining the pieces with a comma gives the input back |
| Text.SplitUnique | frontend/src/pages/PerfilPage.tsx:90 | any comma-free list that joins to a text is exactly that text's split: split is the inverse of join |
| Text.SplitConcat | frontend/src/pages/PerfilPage.tsx:90 | splitting at a comma splits the two sides independently |
| Text.FilterNonEmpty | frontend/src/pages/PerfilPage.tsx:92 | `filter(Boolean)` keeps only non-empty strings, all from the input. A list with no empty string is returned unchanged |
| Text.FilterNonEmptyConcat | frontend/src/pages/PerfilPage.tsx:92 | filtering keeps order and duplicates: it distributes over concatenation |
| Text.Join | frontend/src/pages/PerfilPage.tsx:76-77 | `join` of no pieces is empty, of one piece is that piece, and the result is never shorter than any piece |
| Text.JoinConcat | frontend/src/pages/PerfilPage.tsx:76-77 | joining two non-empty lists is joining each and putting the separator between them |
| Text.Digits | frontend/src/pages/TrabalhosPage.tsx:82-90 | the decimal digits of a natural number, with no leading zero, whose decimal value is the number |
| Text.IntText | frontend/src/pages/TrabalhosPage.tsx:82-90 | `String(n)`: the decimal digits of `n`, after `-` when negative, whose decimal value is `n`, with no leading zero |
| Text.DigitsCanonical | frontend/src/pages/TrabalhosPage.tsx:82-90 | a digit string without a leading zero is exactly the `Digits` of its value, so decimal text is unique |
| Text.IntTextCanonical | frontend/src/pages/TrabalhosPage.tsx:82-90 | any digit string without a leading zero is `String` of the number it stands for: no other text renders that number |
| Text.IntTextNegative | frontend/src/pages/TrabalhosPage.tsx:82-90 | a negative number is written as `-` before the text of its magnitude |
| Js.ToText | frontend/src/lib/trabalhos.ts:196 | template interpolation: a string as itself, a number as `String(n)` (`Text.IntText`), `undefined`, `null` and the booleans as their names, an empty list as the empty text |
| Usuarios.FetchUsuario | frontend/src/lib/usuarios.ts:44-50 | the result is `null` exactly when no document exists. Otherwise it has the stored keys plus `uid`, `uid` equals the argument, and every other stored field is unchanged |
| Usuarios.FetchUsuarios | frontend/src/lib/usuarios.ts:35-42 | one profile per document. Each has the document's keys plus `uid`, `uid` equals the document id whatever is stored, and the other fields are unchanged |
| Usuarios.UpsertPayload | frontend/src/lib/usuarios.ts:54-63 | the payload's keys are the data's plus `uid` and `updatedAt`, and `createdAt` only when no document exists. `updatedAt` is always the clock. `uid` is the argument unless the data carries one. On a later call, `createdAt` is whatever the data carries. The data's other fields pass through |
| Usuarios.UsuarioStore.Lookup | frontend/src/lib/usuarios.ts:60-61 | the existence check: a document is found exactly when the id is stored |
| Usuarios.UsuarioStore.Upsert | frontend/src/lib/usuarios.ts:52-66 | only the addressed document changes. It becomes the payload, with `createdAt` added only if the existence check found nothing, merged into what was stored |
| Usuarios.UpsertedField | frontend/src/lib/usuarios.ts:54-65 | after an upsert, any field other than the identity and the timestamps reads as the caller passed it. If the caller passed nothing, it reads as it was stored before |
| Usuarios.CreatedAtStampedOnce | frontend/src/lib/usuarios.ts:60-63 | after a first and a later upsert, `updatedAt` is the later time. `createdAt` is still the first call's reading, unless the later call's data carries its own `createdAt`, which then wins |
| Usuarios.UpsertThenFetch | frontend/src/lib/usuarios.ts:44-65 | reading a profile back after an upsert finds it, with `uid` equal to the address, `updatedAt` equal to the write's time, and every defined field the caller passed |
| Trabalhos.CleanUndefined | frontend/src/lib/trabalhos.ts:52-55 | keeps exactly the entries whose value is not `undefined`, values unchanged (`null` entries survive) |
| Trabalhos.NormalizeTrabalho | frontend/src/lib/trabalhos.ts:60-67 | the record has the stored keys plus `id`, `data` and `horarioInicio`. `data` and `horarioInicio` are never missing: `null` exactly when the stored value is missing or null, the stored value otherwise. Every other stored field is copied, and a stored `id` wins over the document id |
| Trabalhos.FetchTrabalhos | frontend/src/lib/trabalhos.ts:57-69 | a failed read propagates. Otherwise one record per document, in order, each with `data` and `horarioInicio` defaulted to `null` |
| Trabalhos.NumberOrUndefined | frontend/src/lib/trabalhos.ts:134-135 | a number is kept and any other value becomes `undefined` |
| Trabalhos.NormalizeIgreja | frontend/src/lib/trabalhos.ts:126-136 | the id is the document id. The name is the stored name when truthy and the document id otherwise, so it is never empty for a non-empty id. The optional texts are copied, and `lat`/`lng` are kept only when they are numbers |
| Trabalhos.FetchIgrejas | frontend/src/lib/trabalhos.ts:120-141 | a failed read yields the empty list. Otherwise one church per document, in order, and every church with an id has a non-empty name |
| Trabalhos.CreateIgrejaPayload | frontend/src/lib/trabalhos.ts:154-166 | the payload carries only the ten keys `createIgreja` writes and never `undefined`. Its `createdAt` and `updatedAt` are the two clock readings |
| Trabalhos.CreatedIgrejaNameAndCoords | frontend/src/lib/trabalhos.ts:155-163 | a created church carries the input's name, and `lat`/`lng` only when they are numbers |
| Trabalhos.CreatedIgrejaPlace | frontend/src/lib/trabalhos.ts:157-159 | the city, state and country are written only when non-empty, and then as given |
| Trabalhos.CreatedIgrejaNotes | frontend/src/lib/trabalhos.ts:160-161 | the lineage and notes are written only when non-empty, and then as given |
| Trabalhos.UpdateIgrejaPayload | frontend/src/lib/trabalhos.ts:171-178 | the payload holds the supplied fields as given (an empty string is kept), `lat`/`lng` only when they are numbers, and `updatedAt`. It never holds `undefined`, and holds `createdAt` only if the input does |
| Trabalhos.BebidaTemplate | frontend/src/lib/trabalhos.ts:196 | the template starts with the grade (or `?`) followed by `º`, so it is never all white space |
| Trabalhos.NormalizeBebida | frontend/src/lib/trabalhos.ts:192-197 | the description is the stored one when truthy, otherwise the trimmed template. Either way it is never empty |
| Trabalhos.FetchBebidaLotes | frontend/src/lib/trabalhos.ts:188-202 | a failed read yields the empty list. Otherwise one batch per document, in order, each with a non-empty description |
| Trabalhos.CreateTrabalhoPayload | frontend/src/lib/trabalhos.ts:204-213 | the payload has the input's keys plus the four defaulted ones and both timestamps. Both durations, `data` and `horarioInicio` are never missing: `null` exactly when the input lacks them. Every other input field passes through |
| Trabalhos.UpdateTrabalhoPayload | frontend/src/lib/trabalhos.ts:218-223 | the payload is the supplied fields plus `updatedAt`, nothing else |
| Trabalhos.CreatedTrabalhoReadsBack | frontend/src/lib/trabalhos.ts:57-215 | a ceremony written by `createTrabalho` and read by `fetchTrabalhos` has both durations, its date and its start time as the input gave them, or `null`. It has both timestamps, and the document id unless the input carried an `id` |
| Trabalhos.CreatedTrabalhoOmits | frontend/src/lib/trabalhos.ts:57-215 | a field the creation input does not set, other than the id, the defaulted fields and the timestamps, is missing from the record read back |
| Perfil.ParseList | frontend/src/pages/PerfilPage.tsx:89-96 | the parsed list is clean: every element is non-empty, trimmed and comma-free |
| Perfil.TrimAll | frontend/src/pages/PerfilPage.tsx:91 | `map(s => s.trim())` keeps the length and trims each element in place |
| Perfil.TrimAllConcat | frontend/src/pages/PerfilPage.tsx:91 | trimming each element distributes over concatenation |
| Perfil.ParseListConcat | frontend/src/pages/PerfilPage.tsx:89-96 | order and duplicates are kept: a comma splits the parsed list into the lists of its two sides |
| Perfil.ParseListSingle | frontend/src/pages/PerfilPage.tsx:89-96 | a comma-free text parses to its trimmed self, or to nothing when that is empty |
| Perfil.ParseListLeadingSpace | frontend/src/pages/PerfilPage.tsx:89-96 | a leading space on the text makes no difference to the parsed list |
| Perfil.ParseListSpaceAfterComma | frontend/src/pages/PerfilPage.tsx:89-96 | a space after a comma makes no difference: `a, b` and `a,b` parse to the same list |
| Perfil.ParseListCons | frontend/src/pages/PerfilPage.tsx:89-96 | a clean element followed by ", " parses back as itself, followed by the rest's list |
| Perfil.ListRoundTrip | frontend/src/pages/PerfilPage.tsx:76-96 | loading joins a stored list with ", " and saving parses it again: a clean list comes back unchanged |
| Perfil.ParseListStable | frontend/src/pages/PerfilPage.tsx:76-96 | parsing is stable under a load/save cycle: re-joining and re-parsing a parsed list gives the same list |
| Perfil.PayloadOf | frontend/src/pages/PerfilPage.tsx:87-122 | the payload keeps the profile invariant whatever the form holds. The sponsor flag written is `fardado && padrinhoMadrinha`. A robed form's robing texts are written even when it is not a sponsor. No text is written empty, and the email falls back to the account's. A sponsor's church ids are filtered of empty ones. The role list is `undefined` exactly when empty |
| Perfil.AsFields | frontend/src/pages/PerfilPage.tsx:98-122 | the object handed to the store carries the payload's `uid`, both flags, the six robing fields and the two sponsor fields under their own keys |
| Perfil.AsFieldsKeys | frontend/src/pages/PerfilPage.tsx:98-122 | the object handed to the store has exactly the 23 keys of the payload literal, no more and no fewer |
| Perfil.AsFieldsDisplayName | frontend/src/pages/PerfilPage.tsx:100 | `displayName` is written as the payload holds it |
| Perfil.AsFieldsEmail | frontend/src/pages/PerfilPage.tsx:101 | `email` is written as the payload holds it |
| Perfil.AsFieldsPhone | frontend/src/pages/PerfilPage.tsx:102 | `phone` is written as the payload holds it |
| Perfil.AsFieldsAvatarUrl | frontend/src/pages/PerfilPage.tsx:103 | `avatarUrl` is written as the payload holds it |
| Perfil.AsFieldsCidade | frontend/src/pages/PerfilPage.tsx:104 | `cidade` is written as the payload holds it |
| Perfil.AsFieldsEstado | frontend/src/pages/PerfilPage.tsx:105 | `estado` is written as the payload holds it |
| Perfil.AsFieldsPais | frontend/src/pages/PerfilPage.tsx:106 | `pais` is written as the payload holds it |
| Perfil.AsFieldsIgrejaAtualId | frontend/src/pages/PerfilPage.tsx:107 | `igrejaAtualId` is written as the payload holds it |
| Perfil.AsFieldsIgrejaAtualNome | frontend/src/pages/PerfilPage.tsx:108 | `igrejaAtualNome` is written as the payload holds it |
| Perfil.AsFieldsIgrejaOrigemNome | frontend/src/pages/PerfilPage.tsx:109 | `igrejaOrigemNome` is written as the payload holds it |
| Perfil.AsFieldsPapeisDoutrina | frontend/src/pages/PerfilPage.tsx:120 | `papeisDoutrina` is written as the payload holds it |
| Perfil.AsFieldsObservacoes | frontend/src/pages/PerfilPage.tsx:121 | `observacoes` is written as the payload holds it |
| Perfil.BuildPayload | frontend/src/pages/PerfilPage.tsx:87-122 | the built payload keeps the profile invariant. The sponsor church names written are the parsed free text, and the roles are the parsed role text, or `undefined` when that parses to nothing |
| Perfil.SavePayload | frontend/src/pages/PerfilPage.tsx:83-124 | without a signed-in user the save fails with "Sessão expirada". Otherwise it yields the payload built from the form for that user, which keeps the invariant and carries the user's id |
| Perfil.LoadForm | frontend/src/pages/PerfilPage.tsx:55-79 | every form field is replaced from the stored profile. The display name falls back to the account's, the account's email wins over the stored one, and the stored lists are joined with ", ". A stored profile that keeps the profile invariant loads into a form that keeps it |
| Perfil.AvatarName | frontend/src/pages/PerfilPage.tsx:33-34 | the name, else the email, else "?", so it is never empty |
| Perfil.Avatar | frontend/src/pages/PerfilPage.tsx:135-139 | the form's URL if any, else the account photo, else the generated image for the name/email/"?". It is never empty |
| Perfil.FindIgreja | frontend/src/pages/PerfilPage.tsx:247 | `find` returns the first church with that id, and nothing exactly when no church has it |
| Perfil.ChosenName | frontend/src/pages/PerfilPage.tsx:248 | the found church's name, or '' when none was found |
| Perfil.ProfileEditor.constructor | frontend/src/pages/PerfilPage.tsx:8-42 | the form starts as `initialForm`, which keeps the form invariant |
| Perfil.ProfileEditor.Load | frontend/src/pages/PerfilPage.tsx:52-80 | without a user nothing changes. Otherwise the form becomes the loaded form |
| Perfil.ProfileEditor.SetFardado | frontend/src/pages/PerfilPage.tsx:299-306 | unticking also clears the sponsor flag, ids and text. Ticking leaves them. Nothing else changes. Unticking establishes the form invariant and ticking keeps it |
| Perfil.ProfileEditor.SetPadrinho | frontend/src/pages/PerfilPage.tsx:316-318 | only the sponsor flag changes, and on a robed form the invariant is kept |
| Perfil.ProfileEditor.SelectIgrejaAtual | frontend/src/pages/PerfilPage.tsx:246-249 | the current church id is set, and its name is that church's or '' |
| Perfil.ProfileEditor.SelectIgrejaFardamento | frontend/src/pages/PerfilPage.tsx:362-365 | the robing church id is set, and its name is that church's or '' |
| Perfil.ProfileEditor.SelectPadrinhoIgrejas | frontend/src/pages/PerfilPage.tsx:404-407 | only the sponsor church ids change, and the invariant is kept |
| Perfil.ProfileEditor.SetPadrinhoIgrejasTexto | frontend/src/pages/PerfilPage.tsx:422 | only the sponsor church text changes, and the invariant is kept |
| Perfil.ProfileEditor.UseAccountPhoto | frontend/src/pages/PerfilPage.tsx:227-231 | the avatar URL becomes the account photo, which the avatar then shows |
| Perfil.ProfileEditor.Save | frontend/src/pages/PerfilPage.tsx:83-124 | the result is the payload of the form. Without a user the store is untouched. Otherwise exactly the user's document becomes the upsert of that payload |
| Perfil.SavedSponsorIsRobed | frontend/src/pages/PerfilPage.tsx:110-117 | whatever was stored before, a saved profile never holds the sponsor flag without the robed flag |
| Perfil.UnrobingKeepsStoredFields | frontend/src/pages/PerfilPage.tsx:110-119 | saving a form that is not robed writes `fardado: false` but leaves every stored robing and sponsor field in place |
| Perfil.UnrobedPayloadFields | frontend/src/pages/PerfilPage.tsx:110-119 | the object written for a form that is not robed holds no robing and no sponsor field |
| Perfil.UnrobedSponsorKeepsChurches | frontend/src/pages/PerfilPage.tsx:110-119 | a robed sponsor with sponsor church `c1` who saves any form that is not robed, such as the initial form, is stored with `fardado: false` and still holds `c1`, so the stored profile breaks the invariant |
| Perfil.UngatedDocLoadsUngatedForm | frontend/src/pages/PerfilPage.tsx:55-79 | a stored profile that is not robed but holds sponsor church ids loads into a form that breaks the form invariant |
| Perfil.UpsertKeepsRobing | frontend/src/lib/usuarios.ts:65 | an upsert whose data sets no robing field leaves the stored ones unchanged |
| Perfil.UpsertKeepsSponsor | frontend/src/lib/usuarios.ts:65 | an upsert whose data sets no sponsor field leaves the stored ones unchanged |
| TrabalhosPage.FormatStamp | frontend/src/pages/TrabalhosPage.tsx:7-15 | a dash when there is no timestamp, otherwise the locale rendering of that timestamp |
| TrabalhosPage.Count | frontend/src/pages/TrabalhosPage.tsx:19-20 | `n ?? 0`: the stored count, or 0 when missing or null |
| TrabalhosPage.TotalParticipantes | frontend/src/pages/TrabalhosPage.tsx:17-21 | nothing exactly when there are no participants. Otherwise the three counts, missing ones as 0, with `total` their sum |
| TrabalhosPage.TotalsIgnoreOtherFields | frontend/src/pages/TrabalhosPage.tsx:19-20 | changing any field other than the three counts, such as `criancas` or a stored `total`, leaves the totals unchanged |
| TrabalhosPage.OthersPart | frontend/src/pages/TrabalhosPage.tsx:84 | the ` O:` part is empty exactly when there are no others |
| TrabalhosPage.ParticipantsText | frontend/src/pages/TrabalhosPage.tsx:82-85 | a dash exactly when there are no participants. Otherwise the total, the men, the women and the optional others part |
| TrabalhosPage.OrDefault | frontend/src/pages/TrabalhosPage.tsx:56-58 | the text when non-empty, otherwise the fallback, so it is never empty for a non-empty fallback |
| TrabalhosPage.LitresSuffix | frontend/src/pages/TrabalhosPage.tsx:64 | the litres suffix is empty exactly when the quantity is missing or zero |
| TrabalhosPage.BeverageText | frontend/src/pages/TrabalhosPage.tsx:61-66 | the label is shown exactly when `loteRef` or `loteId` is non-empty. It shows `loteId` in preference to `loteRef`, followed by the litres suffix |
| TrabalhosPage.ListText | frontend/src/pages/TrabalhosPage.tsx:72-78 | a non-empty list is joined with ", ", and a missing or empty one shows a dash |
| TrabalhosPage.ExpectedText | frontend/src/pages/TrabalhosPage.tsx:89 | a dash exactly when the expected duration is missing or zero, otherwise its minutes |
| TrabalhosPage.EffectiveSuffix | frontend/src/pages/TrabalhosPage.tsx:90 | the effective duration appears exactly when it is non-zero |
| TrabalhosPage.NotesText | frontend/src/pages/TrabalhosPage.tsx:94-96 | the notes paragraph is present exactly when the notes are non-empty |
| TrabalhosPage.CardOf | frontend/src/pages/TrabalhosPage.tsx:47-97 | a card never has an empty title or location, and each part is the fallback-aware rendering of its field |
| TrabalhosPage.PageView | frontend/src/pages/TrabalhosPage.tsx:24-46 | loading and error states come first, and an empty list has its own message. Otherwise there is one card per record, in order |
| TrabalhosPage.CreatedEventHasNoLocation | frontend/src/pages/TrabalhosPage.tsx:58 | a ceremony created without `local` shows "Local a definir", whatever `localNome` or `localTexto` it carries |
| TrabalhosPage.CreatedEventHasNoChurches | frontend/src/pages/TrabalhosPage.tsx:72-74 | a ceremony created without `igrejasResponsaveis` shows a dash for its churches |
| TrabalhosPage.CreatedEventDate | frontend/src/pages/TrabalhosPage.tsx:7-58 | a ceremony created without a date is stored with `data: null` and shows a dash. One created with a date shows that date |
| TrabalhosPage.CreatedEventTimeWithoutDate | frontend/src/pages/TrabalhosPage.tsx:7-58 | a ceremony created with a start time but no date shows a dash for the date and still shows the start time |

## Left out

- Firestore I/O is not modelled: `getDocs`, `getDoc`, `setDoc`, `addDoc`, `updateDoc`, `deleteDoc` and `deleteIgreja`. The ceremony, church and batch readers (`Trabalhos.FetchTrabalhos`, `Trabalhos.FetchIgrejas`, `Trabalhos.FetchBebidaLotes`) take the documents or the read error as a parameter. `fetchTrabalhos` lets the error through, while the other two catch it and return an empty list. The profile readers (`Usuarios.FetchUsuario`, `Usuarios.FetchUsuarios`) take only the documents, so a failed profile read is not modelled. Writers yield the payload; only the profile store's upsert is modelled as a state change.
- `orderBy('data', 'desc')` is not modelled: records keep the order the reader hands them over. The query also leaves out every document that has no `data` field, so the `?? null` default for `data` only ever meets a stored `null`; the model applies the default to whatever documents it is given.
- `updateDoc`'s failure on a missing document is not modelled.
- The read-then-write race in `upsertUsuario` is not modelled: the existence check and the write are one step.
- The model assumes `ignoreUndefinedProperties`. The Firestore configuration is not part of this model. The model writes as if entries bound to `undefined` are skipped. Without that setting the client would reject the profile payload, which usually has `undefined` entries.
- Nested objects are merged as whole values. `Firestore.MergeWrite` replaces a top-level field, while a merging `setDoc` would merge nested maps field by field. No modelled write holds a nested map except what a caller passes.
- `Usuarios.UsuarioStore.Upsert`: the two clock readings are parameters, so the model does not capture that `createdAt` is read after `updatedAt`.
- Numbers are integers. Floating point, `NaN` and the float `lat`/`lng` are not modelled. Coordinates are only tested for being numbers, and litres and minutes are rendered by their integer decimal form.
- `TrabalhosPage.TotalParticipantes`: a count stored as a string would make JavaScript's `+` concatenate. Only numbers, `null` and missing counts are modelled, which is what the record type declares.
- Locale formatting (`toLocaleDateString`, `toLocaleTimeString`) and `encodeURIComponent` are passed in as functions. Nothing is assumed about them.
- React rendering, hooks and react-query are not modelled: caching, invalidation, `isPending`, the error message state and JSX layout.
- The form's plain text inputs are not modelled as methods. Each is `setForm(f => ({ ...f, k: value }))` on a single field and touches no invariant. The email input is read-only.
- The display functions require records shaped as the TypeScript types declare (`TrabalhosPage.Shaped`). Values the page would crash on, such as a truthy non-timestamp date, are excluded.
- `Perfil.LoadForm` and `Perfil.ProfileEditor.Load` require a stored profile shaped as `UsuarioPerfil` declares (`Perfil.Loadable`, `Perfil.ProfileShaped`): texts are strings, flags are booleans, and lists are lists of strings. Other stored values are excluded. The app's own writes always meet this.
- `Perfil.ChosenName`, `Perfil.ProfileEditor.SelectIgrejaAtual` and `Perfil.ProfileEditor.SelectIgrejaFardamento` require every church name to be a string. A church whose name is not a string is excluded. `Trabalhos.NormalizeIgreja` gives a string name whenever the stored name is a string or missing.
- `AuthProvider`, the login page, routing, the stub pages and the build configuration are not part of this model.
