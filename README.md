# A verified model of the Planac ERP API core

Planac is a multi-tenant ERP backend. Its HTTP API is written with Hono and keeps its data in a
SQL database (Cloudflare D1). Every request carries a company (`empresa_id`), and every handler
reads and writes only that company's rows, except where noted below. The core modelled here is the
following:

- the route files for receivables and payables, cash tills, stock counts, purchasing, quotations,
  invoices, returns and exchanges, system settings, fixed assets, delivery routes, units of measure,
  HR, vehicles, support tickets, workflows, users and access profiles;
- the pure helpers in `utils/helpers.ts`: CPF and CNPJ check digits, formatting, pagination and
  object cleaning;
- the audit trail in `utils/auditoria.ts`.

The model gives each source file its own Dafny module.

- **Tables.** A database table is a `seq` of rows, in insertion order. A `SELECT … LIMIT 1` or
  `.first()` is the first matching row (`Tables.FirstIndex`), and a `COUNT(*)` is `Tables.Count`.
- **Pure helpers.** Validation, numbering, document totals and the settlement arithmetic are pure functions.
  Helpers that loop in the source are methods with loop invariants, and each is proved equal to a
  specification function.
- **Handlers.** A handler that changes the database is a method of a class whose fields are the
  tables it touches. Each method states its response (`Outcome.Ok`, `NotFound`, `BadRequest`,
  `Conflict` or `ServerError`, that is 200/201, 404, 400, 409 and the 500 of a handler that throws
  midway) as a function of the old tables. It also states
  the new tables in terms of pure step functions. The invariants a class keeps (`Valid()`) are
  the integrity rules of that part of the system. Examples: one open cash session per till, a
  ledger balance that equals its postings, distinct document numbers.
- **Parameters.** Identifiers the source generates (`crypto.randomUUID()`), the clock
  (`datetime('now')`), password hashes and the outcome of a password check are method parameters.
- **Money.** Amounts are exact `real`s.

Shared modules:

- `Outcome`: responses, `Option`, the JavaScript `||` defaulting, and the absent, `null` or given fields (`Campo`) of bodies that no schema checks.
- `Tables`: first match and counting.
- `Numbering`: zero-padded sequential document numbers from `MAX`/`COUNT` + 1.
- `Letras`: ASCII case mapping and code-point string order.
- `Money`: sums.
- `Settlement`: the payment step shared by receivables and payables.
- `Estoque`: stock rows.
- `Agrupamento`: the group-by-key loop used by the permission listings.
- `Js`: JavaScript values and plain objects.

## Model

| member | source | states |
|---|---|---|
| Helpers.ApenasNumeros | src/api/src/utils/helpers.ts:216-218 | the result holds only ASCII digits and is no longer than the input |
| Helpers.ApenasNumerosDeDigitos | src/api/src/utils/helpers.ts:216-218 | a string of digits is returned unchanged |
| Helpers.ApenasNumerosIdempotente | src/api/src/utils/helpers.ts:216-218 | stripping non-digits twice is the same as once |
| Helpers.ApenasNumerosConcat | src/api/src/utils/helpers.ts:216-218 | the digits of a concatenation are the concatenation of the digits |
| Helpers.DigitoCpf | src/api/src/utils/helpers.ts:16-31 | a CPF check digit is 0..9, and it is 0 exactly when `soma*10 % 11` is 0 or 10 |
| Helpers.ValidarCPF | src/api/src/utils/helpers.ts:10-33 | the two weighted-sum loops return exactly `CpfValido`: 11 digits after stripping, not all one digit, and both check digits match |
| Helpers.PesoCnpj | src/api/src/utils/helpers.ts:47-64 | the running weight `pos` always lies in 2..9 |
| Helpers.PesosCnpj | src/api/src/utils/helpers.ts:47-64 | the `pos--` / reset-to-9 weights of the first and second CNPJ sums are 5,4,3,2,9,…,2 and 6,5,4,3,2,9,…,2 |
| Helpers.DigitoCnpj | src/api/src/utils/helpers.ts:55 | a CNPJ check digit is 0..9; it is 0 exactly when `soma % 11 < 2`; otherwise it brings the sum to a multiple of 11 |
| Helpers.SomarCnpj | src/api/src/utils/helpers.ts:50-53 | the loop that decrements `pos` and wraps it from below 2 back to 9 computes the weighted sum `SomaCnpj` |
| Helpers.ValidarCNPJ | src/api/src/utils/helpers.ts:38-72 | the result is exactly `CnpjValido`: 14 digits, not all one digit, and both check digits match |
| Helpers.ValidarCpfCnpj | src/api/src/utils/helpers.ts:77-82 | a document is accepted iff it is a valid CPF or a valid CNPJ (11 or 14 digits, else false) |
| Helpers.ValidadoresSoDigitos | src/api/src/utils/helpers.ts:77-106 | the CPF, CNPJ, phone (10 or 11 digits) and CEP (8 digits) validators are unchanged by removing non-digits first |
| Helpers.FormatarCpfDigitos | src/api/src/utils/helpers.ts:113-116 | formatting a CPF adds punctuation only: its digits are the input's digits |
| Helpers.FormatarCpfIdempotente | src/api/src/utils/helpers.ts:113-116 | formatting an already formatted CPF changes nothing |
| Helpers.FormatarCpfLargura | src/api/src/utils/helpers.ts:113-116 | an 11-digit CPF is formatted to 14 characters |
| Helpers.FormatarCnpjDigitos | src/api/src/utils/helpers.ts:121-124 | formatting a CNPJ keeps exactly the input's digits |
| Helpers.FormatarCnpjIdempotente | src/api/src/utils/helpers.ts:121-124 | formatting an already formatted CNPJ changes nothing |
| Helpers.FormatarCnpjLargura | src/api/src/utils/helpers.ts:121-124 | a 14-digit CNPJ is formatted to 18 characters |
| Helpers.FormatarCpfCnpjDigitos | src/api/src/utils/helpers.ts:129-134 | choosing by digit count keeps the digits, and so keeps CPF and CNPJ validity |
| Helpers.FormatarCepDigitos | src/api/src/utils/helpers.ts:150-153 | formatting a CEP keeps exactly the input's digits |
| Helpers.FormatarCepIdempotente | src/api/src/utils/helpers.ts:150-153 | formatting an already formatted CEP changes nothing |
| Helpers.FormatarCepLargura | src/api/src/utils/helpers.ts:150-153 | an 8-digit CEP is formatted to 9 characters |
| Helpers.FormatarTelefoneDigitos | src/api/src/utils/helpers.ts:139-145 | formatting a phone keeps exactly the input's digits |
| Helpers.FormatarTelefoneIdempotente | src/api/src/utils/helpers.ts:139-145 | formatting twice is formatting once, and phone validity is kept |
| Helpers.FormatarTelefoneLargura | src/api/src/utils/helpers.ts:139-145 | an 11-digit (mobile) phone becomes 15 characters, a 10-digit one 14 |
| Helpers.Truncar | src/api/src/utils/helpers.ts:230-233 | a string within the limit is unchanged; otherwise, for `tamanho >= 3`, the result is exactly `tamanho` long and is a prefix followed by `...` |
| Helpers.TruncarIdempotente | src/api/src/utils/helpers.ts:230-233 | truncating twice to the same size is truncating once |
| Helpers.CalcularOffset | src/api/src/utils/helpers.ts:354-356 | the offset is non-negative for `page >= 1`, and page 1 starts at 0 |
| Helpers.PaginaDaLinha | src/api/src/utils/helpers.ts:354-356 | row `k` falls in the window of page `p` iff `p == k / limit + 1`, so pages tile the rows |
| Helpers.Teto | src/api/src/utils/helpers.ts:362 | `Math.ceil(a / b)` for either sign of `b`: the least `r` with `a <= r*b` when `b > 0` |
| Helpers.CalcularTotalPaginas | src/api/src/utils/helpers.ts:361-363 | for a positive limit the page count is finite and is the least `n` with `total <= n*limit`; a zero limit gives Infinity or NaN, as JavaScript does |
| Helpers.GerarPaginacao | src/api/src/utils/helpers.ts:368-378 | echoes page, limit and total with `totalPages` from `CalcularTotalPaginas`; `hasPrev` iff `page > 1`, which for a positive limit is iff the offset is positive |
| Helpers.HaProxima | src/api/src/utils/helpers.ts:368-378 | for a positive limit, `hasNext` (`page < totalPages`) holds iff the next page's offset is below the total, so some row remains |
| Helpers.LimparObjeto | src/api/src/utils/helpers.ts:392-396 | keeps no more entries than the input, none of them undefined or null |
| Helpers.LimparObjetoObter | src/api/src/utils/helpers.ts:392-396 | each key reads the same as in the input when its value is defined, and undefined otherwise |
| Helpers.LimparObjetoIdempotente | src/api/src/utils/helpers.ts:392-396 | cleaning a cleaned object changes nothing |
| Js.Chaves | src/api/src/utils/auditoria.ts:151-154 | `Object.keys` lists the keys of the entries, one per entry, in order |
| Js.Obter | src/api/src/utils/auditoria.ts:160-161 | a missing key reads as undefined, and a present key reads as its first entry's value |
| Auditoria.Serializado | src/api/src/utils/auditoria.ts:38-39 | a JSON column is written iff the value is truthy, and then it holds that value |
| Auditoria.LogDe | src/api/src/utils/auditoria.ts:17-43 | the row written has the given id, company, user, action, table and time; the record id, IP, user agent and old and new data are each stored iff truthy, and then unchanged |
| Auditoria.TodasConcat | src/api/src/utils/auditoria.ts:78-109 | `AND` of two condition lists is the conjunction of each |
| Auditoria.Opcional | src/api/src/utils/auditoria.ts:81-109 | a filter adds one condition iff its value is truthy |
| Auditoria.Consulta | src/api/src/utils/auditoria.ts:78-79 | the first condition and parameter is always the company |
| Auditoria.ConsultaSignifica | src/api/src/utils/auditoria.ts:78-109 | a row satisfies the built `WHERE` iff it is the company's and matches each supplied filter; the date bounds are inclusive and compared as text |
| Auditoria.Acrescentar | src/api/src/utils/auditoria.ts:81-109 | each guarded push keeps the SQL conditions and the bound parameters aligned with the specification |
| Auditoria.MontarBusca | src/api/src/utils/auditoria.ts:67-117 | the conditions and parameters are the company then usuario, tabela, registro, acao, data_inicio, data_fim; the defaults are limit 50 and page 1, and offset = (page−1)×limit |
| Auditoria.Trilha.Registrar | src/api/src/utils/auditoria.ts:10-48 | a successful insert appends exactly `LogDe`; a failing one leaves the log unchanged and is not reported to the caller |
| Auditoria.Trilha.Buscar | src/api/src/utils/auditoria.ts:53-133 | the returned total is the number of the company's rows that match the filters |
| Auditoria.RegistroEncontrado | src/api/src/utils/auditoria.ts:10-133 | a row that was written is found by an unfiltered search of its company and by a search on its record id |
| Auditoria.SemRepeticao | src/api/src/utils/auditoria.ts:151-154 | `[...new Set(xs)]` has the same elements, each once |
| Auditoria.SemRepeticaoDistintos | src/api/src/utils/auditoria.ts:151-154 | a list without repeats is unchanged |
| Auditoria.SemRepeticaoPrefixo | src/api/src/utils/auditoria.ts:151-154 | the old record's keys come first, in their order |
| Auditoria.Relatadas | src/api/src/utils/auditoria.ts:156-170 | at most one change per key examined |
| Auditoria.RelatadasCorretas | src/api/src/utils/auditoria.ts:156-169 | each reported change is for an examined key that is not `id`, `created_at` or `updated_at` and whose JSON differs, with `de` the old value and `para` the new one |
| Auditoria.RelatadasCompletas | src/api/src/utils/auditoria.ts:156-169 | every examined key that changed is reported |
| Auditoria.RelatadasDistintas | src/api/src/utils/auditoria.ts:151-169 | over distinct keys, no field is reported twice |
| Auditoria.DiferencasSignificam | src/api/src/utils/auditoria.ts:145-173 | a field is reported iff it is a key of either record, is not a control field, and its values differ; `de`/`para` are the old and new values; fields are distinct |
| Auditoria.RelatadasIdenticas | src/api/src/utils/auditoria.ts:163-169 | comparing a record with itself reports nothing over any keys |
| Auditoria.DiferencasIdenticas | src/api/src/utils/auditoria.ts:163-169 | diffing a record against itself yields an empty list |
| Auditoria.DetectarAlteracoes | src/api/src/utils/auditoria.ts:145-173 | the push loop returns exactly `Diferencas(anterior, novo)` |
| Letras.Maiusculas | src/api/src/routes/unidades.routes.ts:142 | upper-casing maps each character and keeps the length |
| Letras.MaiusculasIdempotente | src/api/src/routes/unidades.routes.ts:129 | upper-casing twice is upper-casing once |
| Letras.Minusculas | src/api/src/routes/users.ts:255 | lower-casing maps each character and keeps the length |
| Letras.MinusculasIdempotente | src/api/src/routes/users.ts:291 | a stored lower-cased e-mail is its own lower-case form |
| Letras.AntesIrreflexivo | src/api/src/routes/profiles.ts:296-297 | the default `sort()` order never puts a string before itself |
| Letras.AntesAssimetrico | src/api/src/routes/profiles.ts:296-297 | the order is asymmetric |
| Letras.AntesTransitivo | src/api/src/routes/profiles.ts:296-297 | the order is transitive |
| Letras.AntesTotal | src/api/src/routes/profiles.ts:296-297 | any two distinct strings are ordered one way or the other |
| Letras.CrescenteDistintos | src/api/src/routes/profiles.ts:296-297 | a strictly ascending list has no repeats |
| Letras.InserirOrdenado | src/api/src/routes/profiles.ts:296-297 | inserting into a sorted list keeps its elements and adds the new one |
| Letras.InserirCrescente | src/api/src/routes/profiles.ts:296-297 | insertion keeps a list strictly ascending |
| Letras.Ordenados | src/api/src/routes/profiles.ts:296-297 | `Array.from(set).sort()` has exactly the set's elements, in strictly ascending order |
| Letras.CrescenteUnico | src/api/src/routes/profiles.ts:296-297 | two ascending lists with the same elements are equal, so the sorted output is determined |
| Agrupamento.Grupo | src/api/src/routes/profiles.ts:130-136 | a group never has more entries than the rows |
| Agrupamento.GrupoVazio | src/api/src/routes/profiles.ts:130-136 | the group of a key is empty iff no row has that key |
| Agrupamento.GrupoContem | src/api/src/routes/profiles.ts:130-136 | every row appears in the group of its own key |
| Agrupamento.GrupoPasso | src/api/src/routes/profiles.ts:130-136 | one more row extends only its own key's group, at the end |
| Agrupamento.GruposPasso | src/api/src/routes/profiles.ts:130-136 | one more row extends its own key's group at the end and leaves every other group as it was |
| Agrupamento.Chaves | src/api/src/routes/profiles.ts:130-136 | the keys that occur among the rows, each once, appended where it first appears |
| Agrupamento.ChavesNova | src/api/src/routes/profiles.ts:130-136 | a row whose key has not been seen appends that key, and no earlier row carries it |
| Agrupamento.ChavesVista | src/api/src/routes/profiles.ts:130-136 | a row whose key has been seen leaves the key list as it was |
| Agrupamento.Agrupar | src/api/src/routes/profiles.ts:130-136 | the dictionary has exactly the keys that occur; each entry is its key's rows in order; the key list is `Chaves`, the keys in order of first appearance |
| Users.Paginacao | src/api/src/routes/users.ts:56-58 | the limit is capped at 100; the offset is `CalcularOffset(page, limit)`; `pages = Math.ceil(total/limit)` is the least sufficient page count for a positive limit, and finite iff the limit is non-zero |
| Users.PaginacaoPadrao | src/api/src/routes/users.ts:56-58 | with no query the listing starts at offset 0 with limit 20 and `ceil(total/20)` pages |
| Users.Localizar | src/api/src/routes/users.ts:353-368 | finds a user with that id in the caller's company, or reports that there is none (404) |
| Users.LocalizarId | src/api/src/routes/users.ts:572-581 | finds the signed-in user by id in any company, or reports that there is none |
| Users.EncontradosCardinal | src/api/src/routes/users.ts:265-275 | with unique profile ids, the `COUNT` of matching profiles is the number of distinct ids found |
| Users.CardinalElementos | src/api/src/routes/users.ts:265-275 | a list has as many distinct elements as entries iff it has no repeats |
| Users.PerfisAceitos | src/api/src/routes/users.ts:265-275 | the create check `found == perfis.length` passes iff every listed profile belongs to the company and none is listed twice |
| Users.UsuarioDe | src/api/src/routes/users.ts:284-295 | the inserted user is active, has the lower-cased e-mail and the given hash, and stores `telefone || null` and `cargo || null` |
| Users.CadastroCriado | src/api/src/routes/users.ts:253-295 | inserting after the e-mail check keeps ids and lower-cased e-mails unique |
| Users.Vinculos | src/api/src/routes/users.ts:298-303 | one link row per listed profile |
| Users.PerfisDe | src/api/src/routes/users.ts:298-303 | a user's profiles are read from its link rows |
| Users.PerfisDeConcat | src/api/src/routes/users.ts:298-303 | the profiles over two link tables are those of each, in order |
| Users.PerfisVinculos | src/api/src/routes/users.ts:298-303 | the inserted links give exactly the listed profiles to the new user and none to anyone else |
| Users.SemVinculos | src/api/src/routes/users.ts:400-402 | the delete removes exactly the user's links |
| Users.PerfisSemVinculos | src/api/src/routes/users.ts:400-402 | after the delete the user has no profiles and every other user keeps theirs |
| Users.Substituicao | src/api/src/routes/users.ts:398-411 | delete then insert gives the user exactly the new list and leaves every other user's profiles unchanged |
| Users.InserirVinculos | src/api/src/routes/users.ts:298-303 | the insert loop appends the links, in order, so the user's profiles gain the listed ones |
| Users.Alterado | src/api/src/routes/users.ts:370-395 | the update never changes id, company, e-mail or password hash, and leaves each absent field as it was |
| Users.AlteradoVazioIdempotente | src/api/src/routes/users.ts:370-395 | an empty update changes nothing, and applying an update twice is applying it once |
| Users.CadastroSubstituido | src/api/src/routes/users.ts:393-395 | rewriting a row that keeps its id and e-mail keeps the users table valid |
| Users.Revogadas | src/api/src/routes/users.ts:477-480 | exactly the user's sessions become revoked; no session is added, removed or un-revoked |
| Users.RevogadasEfeito | src/api/src/routes/users.ts:477-480 | after revocation every session of the user is revoked, and revoking again changes nothing |
| Users.VereditoDesativar | src/api/src/routes/users.ts:453-470 | 404 iff the user is not in the company; otherwise 400 iff it is the caller's own account; otherwise success |
| Users.Contas.constructor | src/api/src/routes/users.ts:12 | no users, profile links, sessions or profiles, and the invariant holds |
| Users.Contas.Criar | src/api/src/routes/users.ts:245-338 | success iff the body is valid, the lower-cased e-mail is unused in every company, and the profiles check passes; then exactly one user and its links are appended, otherwise nothing changes |
| Users.Contas.Atualizar | src/api/src/routes/users.ts:344-439 | 400 for an invalid body, 404 for an unknown user; otherwise the user row is `Alterado` and supplied profiles replace the links |
| Users.Contas.Desativar | src/api/src/routes/users.ts:445-501 | on success only the user's `ativo` is cleared and its sessions are revoked |
| Users.Contas.RedefinirSenha | src/api/src/routes/users.ts:507-559 | 400 for a password under 8 characters, 404 for an unknown user; otherwise only the hash changes and the user's sessions are revoked |
| Users.Contas.TrocarSenha | src/api/src/routes/users.ts:565-621 | success iff the body is valid, the user exists and the current password matches; then only the hash changes and sessions stay |
| Profiles.CatalogoPar | src/api/src/routes/profiles.ts:323-339 | in a valid table any two profiles have distinct ids, and within a company distinct names and at most one default |
| Profiles.Localizar | src/api/src/routes/profiles.ts:407-417 | finds the profile with that id in the caller's company, or reports that there is none |
| Profiles.SemPadrao | src/api/src/routes/profiles.ts:335-339 | clearing the default touches only `padrao`, and clears it exactly on the company's profiles |
| Profiles.SemPadraoCatalogo | src/api/src/routes/profiles.ts:335-339 | clearing defaults keeps the table valid |
| Profiles.PerfilDe | src/api/src/routes/profiles.ts:343-356 | the new profile is active, has the given id, company and name, and is the default iff `padrao` was sent true |
| Profiles.Criado | src/api/src/routes/profiles.ts:335-356 | a new default profile first clears every other default of the company; rows of other companies are unchanged |
| Profiles.CatalogoCriado | src/api/src/routes/profiles.ts:315-393 | creating a profile with a fresh id and an unused name keeps names unique and at most one default per company |
| Profiles.Alterado | src/api/src/routes/profiles.ts:441-469 | the update never changes id or company and leaves each absent field as it was |
| Profiles.AlteradoVazio | src/api/src/routes/profiles.ts:441-469 | an update with no fields changes nothing |
| Profiles.AlteradoIdempotente | src/api/src/routes/profiles.ts:441-469 | applying an update twice is applying it once |
| Profiles.Atualizado | src/api/src/routes/profiles.ts:434-469 | making a profile the default clears the company's other defaults, and other companies' rows are untouched |
| Profiles.CatalogoAtualizado | src/api/src/routes/profiles.ts:399-490 | an update that passes the name check keeps the table valid |
| Profiles.PermissoesDe | src/api/src/routes/profiles.ts:521-532 | a profile's permissions are read from its grant rows |
| Profiles.PermissoesDeConcat | src/api/src/routes/profiles.ts:526-532 | the permissions over two grant tables are those of each, in order |
| Profiles.SemConcessoes | src/api/src/routes/profiles.ts:521-524 | the delete removes exactly the profile's grants |
| Profiles.PermissoesSemConcessoes | src/api/src/routes/profiles.ts:521-524 | after the delete the profile has no permissions and every other profile keeps its own |
| Profiles.Concessoes | src/api/src/routes/profiles.ts:526-532 | one grant row per listed permission |
| Profiles.PermissoesConcessoes | src/api/src/routes/profiles.ts:526-532 | the inserted grants give exactly the listed permissions to that profile only |
| Profiles.ConcessoesAcrescentar | src/api/src/routes/profiles.ts:526-532 | one more iteration of the insert loop appends one grant |
| Profiles.InserirConcessoes | src/api/src/routes/profiles.ts:526-532 | the insert loop appends the grants in order, so the profile gains the listed permissions |
| Profiles.Substituicao | src/api/src/routes/profiles.ts:496-563 | delete then insert gives the profile exactly the new list and leaves every other profile's permissions unchanged |
| Profiles.SemPerfil | src/api/src/routes/profiles.ts:612-619 | the delete removes exactly the rows with that id |
| Profiles.CatalogoSemPerfil | src/api/src/routes/profiles.ts:612-619 | removing a profile keeps the table valid |
| Profiles.VereditoExcluir | src/api/src/routes/profiles.ts:577-609 | 404 iff the profile is not in the company; otherwise 400 when it is the default or any user is linked to it; success otherwise |
| Profiles.MatrizDe | src/api/src/routes/profiles.ts:281-291 | an empty catalogue gives an empty matrix |
| Profiles.MatrizCobre | src/api/src/routes/profiles.ts:281-291 | every catalogue permission has a cell under its module and action, and the matrix has exactly the modules that occur |
| Profiles.MatrizAtiva | src/api/src/routes/profiles.ts:281-291 | a cell is active exactly when its permission is granted to the profile |
| Profiles.MatrizOrigem | src/api/src/routes/profiles.ts:281-291 | every cell comes from a catalogue row with that module and action |
| Profiles.MatrizUltima | src/api/src/routes/profiles.ts:281-291 | when two rows share a module and action, the later one's cell wins |
| Profiles.MatrizPasso | src/api/src/routes/profiles.ts:281-291 | one loop iteration sets exactly one cell |
| Profiles.MontarMatriz | src/api/src/routes/profiles.ts:276-297 | the loop builds `MatrizDe`; the action and module lists are sorted and have exactly the actions and modules that occur |
| Profiles.Cadastro.constructor | src/api/src/routes/profiles.ts:11 | empty profile, grant, link and permission tables, and the invariant holds |
| Profiles.Cadastro.Criar | src/api/src/routes/profiles.ts:315-393 | 400 iff the body is invalid or the name is taken in the company; on success the profile is added (after clearing defaults if needed) and its grants inserted |
| Profiles.Cadastro.Atualizar | src/api/src/routes/profiles.ts:399-490 | 400 for an invalid body or a name used by another profile of the company, 404 for an unknown profile; otherwise `Atualizado` |
| Profiles.Cadastro.SubstituirPermissoes | src/api/src/routes/profiles.ts:496-563 | 404 iff the profile is not in the company; on success it has exactly the new permissions and no other profile's change |
| Profiles.Cadastro.Excluir | src/api/src/routes/profiles.ts:569-640 | the verdict is `VereditoExcluir`; on success the profile and its grants are removed |
| Profiles.Cadastro.MatrizDoPerfil | src/api/src/routes/profiles.ts:247-309 | 404 iff the profile is not in the company; the matrix marks exactly its granted permissions, with sorted action and module lists |
| Profiles.Cadastro.ListarPermissoes | src/api/src/routes/profiles.ts:106-155 | the total is the catalogue size, and the listing groups every permission under its module, each module once |
| Perfis.Localizar | src/api/src/routes/perfis.routes.ts:187-193 | finds the profile with that id in the caller's company, or reports that there is none |
| Perfis.PerfilDe | src/api/src/routes/perfis.routes.ts:129-140 | a created profile is active and not a system profile, and stores `descricao || null` |
| Perfis.CatalogoCriado | src/api/src/routes/perfis.routes.ts:102-167 | creating with a fresh id and an unused code keeps codes unique per company |
| Perfis.Editado | src/api/src/routes/perfis.routes.ts:201-223 | an edit never changes id, company, code or the system flag, and leaves absent fields as they were |
| Perfis.EditadoVazioIdempotente | src/api/src/routes/perfis.routes.ts:201-223 | an empty edit changes nothing, and editing twice is editing once |
| Perfis.CatalogoEditado | src/api/src/routes/perfis.routes.ts:170-253 | an edit keeps the table valid |
| Perfis.Desativado | src/api/src/routes/perfis.routes.ts:284-286 | the soft delete changes only `ativo`, to false |
| Perfis.CatalogoDesativado | src/api/src/routes/perfis.routes.ts:284-286 | the soft delete keeps the table valid |
| Perfis.VereditoExcluir | src/api/src/routes/perfis.routes.ts:260-282 | 404 iff the profile is not in the company; otherwise 400 for a system profile or one with linked users; success otherwise |
| Perfis.Ativas | src/api/src/routes/perfis.routes.ts:303-307 | keeps exactly the active permissions |
| Perfis.ListarPermissoes | src/api/src/routes/perfis.routes.ts:301-322 | the active permissions grouped by module, with exactly the modules of active rows |
| Perfis.GrupoDasAtivas | src/api/src/routes/perfis.routes.ts:309-316 | every grouped row is active and belongs to its module |
| Perfis.Cadastro.constructor | src/api/src/routes/perfis.routes.ts:11 | empty profile, grant and link tables, and the invariant holds |
| Perfis.Cadastro.Criar | src/api/src/routes/perfis.routes.ts:102-167 | 400 iff the body is invalid or the code is taken; on success one profile and its grants are appended |
| Perfis.Cadastro.Editar | src/api/src/routes/perfis.routes.ts:170-253 | 400 for an invalid body or a system profile, 404 for an unknown one; system profiles never change; supplied permissions replace the profile's |
| Perfis.Cadastro.Excluir | src/api/src/routes/perfis.routes.ts:256-298 | the verdict is `VereditoExcluir`; on success the row stays with `ativo` false, and system profiles never change |
| Outcome.Escrito | src/api/src/routes/workflows.routes.ts:136-138 | a field written when `!== undefined`: absent keeps the column, `null` clears it, a value replaces it |
| Outcome.OrNull | src/api/src/routes/contas-receber.routes.ts:269-274 | `x \|\| null` stores a value iff it is a non-empty string, and then stores it unchanged |
| Tables.FirstIndex | src/api/src/routes/contas-receber.routes.ts:302-304 | `.first()` returns the first matching row, or none iff no row matches |
| Tables.Count | src/api/src/utils/auditoria.ts:112-114 | `COUNT(*)` never exceeds the number of rows |
| Tables.CountAppend | src/api/src/utils/auditoria.ts:112-114 | appending a row raises the count by one iff the row matches |
| Tables.CountZero | src/api/src/utils/auditoria.ts:112-114 | the count is zero iff no row matches |
| Tables.CountMonotone | src/api/src/utils/auditoria.ts:112-114 | a weaker condition never counts fewer rows |
| Settlement.Abrir | src/api/src/routes/contas-receber.routes.ts:256-274 | a new title has total = original + interest + fine − discount, balance = total, nothing settled, status ABERTO |
| Settlement.Baixar | src/api/src/routes/contas-receber.routes.ts:340-351 | a posting adds its amount to the settled total; the title is settled iff the amount reaches the balance, and then the balance is 0 and the settlement date is set; otherwise the balance drops by the amount |
| Settlement.Cancelar | src/api/src/routes/contas-receber.routes.ts:397-399 | cancelling only sets CANCELADO and `motivo \|\| observacao`; amounts are untouched |
| Settlement.Reprogramar | src/api/src/routes/contas-receber.routes.ts:433-435 | rescheduling changes only the due date |
| Settlement.BaixarOutcome | src/api/src/routes/contas-receber.routes.ts:294-312 | a posting is accepted iff the body is valid and the title is the company's and ABERTO; 404 iff the body is valid and the title is missing; 400 otherwise |
| Settlement.FechadoRejeitaBaixas | src/api/src/routes/contas-receber.routes.ts:310-312 | once a title is settled or cancelled, every later posting attempt leaves it unchanged |
| Settlement.SaldoNaoCresce | src/api/src/routes/contas-receber.routes.ts:340-351 | over any sequence of attempts the balance never grows or goes negative, and the settled total never shrinks |
| Settlement.SaldoAposBaixa | src/api/src/routes/contas-receber.routes.ts:340-351 | after an accepted posting the balance is non-negative (the `Math.max(0, …)`) |
| Settlement.QuitadoFinal | src/api/src/routes/contas-receber.routes.ts:340-351 | a posting that covers the balance settles the title for good, with balance 0 |
| Settlement.AbrirCoerente | src/api/src/routes/contas-receber.routes.ts:256-274 | a new title is coherent: balance equals total and nothing is settled |
| Settlement.BaixarCoerente | src/api/src/routes/contas-receber.routes.ts:340-351 | a posting keeps the balance equal to what remains of the total, floored at 0 |
| Settlement.CancelarCoerente | src/api/src/routes/contas-receber.routes.ts:397-399 | cancelling keeps a title coherent |
| Settlement.QuitadoCobreTotal | src/api/src/routes/contas-receber.routes.ts:340-351 | a coherent settled title has received at least its total |
| Settlement.LancamentoDe | src/api/src/routes/contas-receber.routes.ts:315-328 | the receipt row points at the title, records the amount, and stores net = amount + interest + fine − discount |
| Settlement.FormaRows | src/api/src/routes/contas-receber.routes.ts:331-337 | one row per payment-method line, in order, each pointing at the posting |
| Settlement.TotalLancadoAppend | src/api/src/routes/contas-receber.routes.ts:318-328 | one more posting adds its amount to its own title's total only |
| Settlement.TotalLancadoAusente | src/api/src/routes/contas-receber.routes.ts:318-328 | a title with no postings has a zero total |
| Settlement.EscrituradoCriar | src/api/src/routes/contas-receber.routes.ts:244-286 | adding a fresh title keeps every title's settled amount equal to the sum of its postings |
| Settlement.EscrituradoBaixar | src/api/src/routes/contas-receber.routes.ts:289-381 | a posting and its row together keep the settled amounts equal to the sums of the postings |
| Settlement.EscrituradoAlterar | src/api/src/routes/contas-receber.routes.ts:384-443 | a change that keeps the settled amount keeps the ledger consistent |
| ContasReceber.DescricaoRecebimento | src/api/src/routes/contas-receber.routes.ts:363 | the bank movement description is `Recebimento - ` followed by the document number |
| ContasReceber.CreditoDe | src/api/src/routes/contas-receber.routes.ts:354-366 | exactly one CREDITO movement of the net amount, with origin RECEBIMENTO and the receipt id, iff a bank account was given |
| ContasReceber.ContasReceber.constructor | src/api/src/routes/contas-receber.routes.ts:11 | no receivables, receipts, payment rows or cash movements, and the invariant holds |
| ContasReceber.ContasReceber.Criar | src/api/src/routes/contas-receber.routes.ts:244-286 | 400 iff the body is invalid; otherwise `Abrir` is stored under the new id and nothing else changes |
| ContasReceber.ContasReceber.Receber | src/api/src/routes/contas-receber.routes.ts:289-381 | the verdict is `BaixarOutcome`; on success the title is `Baixar`-ed and one receipt row, its method rows and `CreditoDe` are appended; otherwise nothing changes |
| ContasReceber.ContasReceber.Cancelar | src/api/src/routes/contas-receber.routes.ts:384-412 | 404 iff the title is not the company's; otherwise it is cancelled whatever its status |
| ContasReceber.ContasReceber.AlterarVencimento | src/api/src/routes/contas-receber.routes.ts:415-443 | 404 unless the title is the company's and ABERTO; otherwise only the due date changes |
| ContasPagar.DescricaoPagamento | src/api/src/routes/contas-pagar.routes.ts:417 | the bank movement description is `Pagamento - ` followed by the document number |
| ContasPagar.DebitoDe | src/api/src/routes/contas-pagar.routes.ts:408-420 | exactly one DEBITO movement of the net amount, with origin PAGAMENTO and the payment id, iff a bank account was given |
| ContasPagar.ContasPagar.constructor | src/api/src/routes/contas-pagar.routes.ts:11 | no payables, payments, payment rows or bank movements, and the invariant holds |
| ContasPagar.ContasPagar.Criar | src/api/src/routes/contas-pagar.routes.ts:297-340 | 400 iff the body is invalid; otherwise `Abrir` is stored under the new id and nothing else changes |
| ContasPagar.ContasPagar.Pagar | src/api/src/routes/contas-pagar.routes.ts:343-435 | the verdict is `BaixarOutcome`; on success the title is `Baixar`-ed and one payment row, its method rows and `DebitoDe` are appended; otherwise nothing changes |
| ContasPagar.ContasPagar.Cancelar | src/api/src/routes/contas-pagar.routes.ts:438-466 | 404 iff the title is not the company's; otherwise it is cancelled whatever its status |
| ContasPagar.ContasPagar.AlterarVencimento | src/api/src/routes/contas-pagar.routes.ts:469-497 | 404 unless the title is the company's and ABERTO; otherwise only the due date changes |
| Caixas.PrimeiraAberta | src/api/src/routes/caixas.routes.ts:287-303 | finds the first open session of a till (or of a user), or reports that there is none |
| Caixas.AbrirOutcome | src/api/src/routes/caixas.routes.ts:270-310 | 404 iff the amount is valid and the till is not an active till of the company; success only when neither the till nor the user has an open session |
| Caixas.AbrirPreservaUnicidade | src/api/src/routes/caixas.routes.ts:287-318 | opening after both checks keeps at most one open session per till and per user |
| Caixas.Encerrar | src/api/src/routes/caixas.routes.ts:378-405 | closing sets FECHADO with informed = Σ counted amounts, difference = informed − system, zero iff they agree; till, user and opening amount are kept |
| Caixas.SaldosAposMovimento | src/api/src/routes/caixas.routes.ts:361-381 | a new movement changes only its own session's balances, by +value for ENTRADA and −value for SAIDA (cash balance only for DINHEIRO) |
| Caixas.SaldosSessaoNova | src/api/src/routes/caixas.routes.ts:314-318 | a new session's balances start at the opening amount |
| Caixas.SaldosComMesmaAbertura | src/api/src/routes/caixas.routes.ts:384-405 | rewriting a session with the same opening amount leaves every cash balance unchanged |
| Caixas.Tesouraria.MeuCaixa | src/api/src/routes/caixas.routes.ts:82-136 | returns the user's open session with balance = opening + Σ signed movements, or none iff the user has no open session |
| Caixas.Tesouraria.constructor | src/api/src/routes/caixas.routes.ts:11 | the given tills with no sessions or movements, and the invariant holds |
| Caixas.Tesouraria.Abrir | src/api/src/routes/caixas.routes.ts:266-334 | the verdict is `AbrirOutcome`; on success exactly one open session, under the new id, is appended |
| Caixas.Tesouraria.Suprimento | src/api/src/routes/caixas.routes.ts:429-456 | 400 iff the value is not positive or the user has no open session; otherwise one cash ENTRADA with `motivo \|\| 'Suprimento de caixa'` is appended |
| Caixas.Tesouraria.Sangria | src/api/src/routes/caixas.routes.ts:459-513 | success iff the value is positive, the user has an open session and the value is at most its cash balance; then one cash SAIDA, plus a bank CREDITO described `Sangria do caixa - ` and the session id iff a destination account is known; cash balances stay non-negative |
| Caixas.Tesouraria.Fechar | src/api/src/routes/caixas.routes.ts:337-426 | 400 iff the count is invalid or the user has no open session; otherwise that session is `Encerrar`-ed with the system total |
| Numbering.Digits | src/api/src/routes/inventarios.routes.ts:230 | `String(n)` of a natural number is a non-empty digit string, of one digit iff `n < 10` |
| Numbering.ValueOfDigits | src/api/src/routes/inventarios.routes.ts:230 | reading back the decimal text of `n` gives `n` |
| Numbering.LeftPad | src/api/src/routes/inventarios.routes.ts:230 | `padStart` reaches the width unless the text is already longer, and then keeps its length |
| Numbering.LeftPadSuffix | src/api/src/routes/inventarios.routes.ts:230 | `padStart` keeps the text as a suffix and puts only fill characters in front of it |
| Numbering.ValueOfLeadingZeros | src/api/src/routes/inventarios.routes.ts:230 | leading zeros do not change the value of a digit string |
| Numbering.CastDigits | src/api/src/routes/inventarios.routes.ts:226 | `CAST(… AS INTEGER)` of a decimal text is its number |
| Numbering.PaddedRoundTrip | src/api/src/routes/inventarios.routes.ts:230 | a zero-padded number is all digits, has the expected width, and denotes the number |
| Numbering.PaddedInjective | src/api/src/routes/inventarios.routes.ts:230 | two numbers pad to the same text iff they are equal |
| Numbering.LeadingDigits | src/api/src/routes/inventarios.routes.ts:226 | the digit prefix that `CAST` reads stops at the first non-digit |
| Numbering.LeadingDigitsOfDigits | src/api/src/routes/inventarios.routes.ts:226 | the whole of a digit string is read |
| Numbering.CastPadded | src/api/src/routes/inventarios.routes.ts:226-230 | `CAST` reads back the padded number it was given |
| Numbering.MaxOf | src/api/src/routes/inventarios.routes.ts:226 | `MAX` bounds every value and is one of them; 0 for no rows (the `COALESCE`) |
| Numbering.MaxNumeroBounds | src/api/src/routes/inventarios.routes.ts:226 | every stored number casts to at most `MAX(CAST(numero AS INTEGER))` |
| Numbering.NextNumeroFresh | src/api/src/routes/inventarios.routes.ts:225-230 | `MAX+1` padded to six digits is greater than every stored number and so differs from all of them |
| Numbering.CounterNumeroInjective | src/api/src/routes/trocas.routes.ts:144-146 | `prefix + (COUNT+1)` numbers are equal iff the counts are |
| Numbering.FormattedMiddle | src/api/src/routes/configuracoes-sistema.routes.ts:179 | the middle of `prefix + padded(n) + suffix` denotes `n` |
| Numbering.FormattedInjective | src/api/src/routes/configuracoes-sistema.routes.ts:179 | two sequence numbers with the same prefix, width and suffix are equal iff the counters are |
| Numbering.IntTextSign | src/api/src/routes/patrimonio.routes.ts:378 | `String(n)` of an integer starts with `-` iff the integer is negative |
| Numbering.IntTextInjective | src/api/src/routes/patrimonio.routes.ts:378 | `String(n)` is injective on integers |
| Inventarios.Localizar | src/api/src/routes/inventarios.routes.ts:136-168 | finds an inventory with that id in the company |
| Inventarios.NoEstado | src/api/src/routes/inventarios.routes.ts:260-262 | finds the company's inventory with that id only when its status is one of those allowed |
| Inventarios.NumerosDa | src/api/src/routes/inventarios.routes.ts:225-228 | the numbers looked at are exactly those of the company's inventories |
| Inventarios.ItemNovo | src/api/src/routes/inventarios.routes.ts:271-308 | a generated line records the product and its stock at the location (0 when absent), uncounted and unadjusted |
| Inventarios.Snapshot | src/api/src/routes/inventarios.routes.ts:271-309 | the lines are exactly the company's active products that pass the optional category, brand and in-stock filters |
| Inventarios.Contar | src/api/src/routes/inventarios.routes.ts:386-399 | a count sets the counted quantity of every line of that product and touches nothing else |
| Inventarios.RecontagemSobrescreve | src/api/src/routes/inventarios.routes.ts:386-399 | counting a product again overwrites the earlier count |
| Inventarios.ContagensComutam | src/api/src/routes/inventarios.routes.ts:386-399 | counts of different products commute |
| Inventarios.ContarLote | src/api/src/routes/inventarios.routes.ts:423-444 | a batch applies each valid count; quantities, products and adjustment flags are kept, and counted lines stay counted |
| Inventarios.ContarLoteNaoListados | src/api/src/routes/inventarios.routes.ts:423-444 | counts for products not on the list change nothing (their `UPDATE` hits no row) |
| Inventarios.MovimentoAjuste | src/api/src/routes/inventarios.routes.ts:523-536 | an adjustment moves `|counted − system|` of the product at the location, ENTRADA when positive, so its signed quantity is the difference |
| Inventarios.MovimentosAjuste | src/api/src/routes/inventarios.routes.ts:521-555 | one movement per divergent, unadjusted line |
| Inventarios.AjusteSomaDivergencia | src/api/src/routes/inventarios.routes.ts:521-555 | the signed movements add up to the total divergence |
| Inventarios.EstoqueAjustado | src/api/src/routes/inventarios.routes.ts:539-544 | only existing stock rows of that location are set; the stock of other locations is untouched |
| Inventarios.EstoqueAjustadoNaoListado | src/api/src/routes/inventarios.routes.ts:539-544 | a product not on the list keeps its stock |
| Inventarios.MarcarAjustados | src/api/src/routes/inventarios.routes.ts:547-552 | afterwards no line is left to adjust, and counts are kept |
| Inventarios.SemDivergenciaValorNulo | src/api/src/routes/inventarios.routes.ts:171-183 | with no divergent line the divergence value is 0 |
| Inventarios.EstatisticasDe | src/api/src/routes/inventarios.routes.ts:171-183 | divergent ≤ counted ≤ total lines, and the value is 0 when nothing diverges |
| Inventarios.SemPendentesTodosContados | src/api/src/routes/inventarios.routes.ts:463-473 | with no pending line every line is counted |
| Inventarios.ConsistenteAtualizar | src/api/src/routes/inventarios.routes.ts:339-342 | rewriting an inventory that keeps its key, does not become active and stays coherent keeps the table consistent |
| Inventarios.ConsistenteAcrescentar | src/api/src/routes/inventarios.routes.ts:212-240 | a new draft with no active inventory at its location keeps one active inventory per location |
| Inventarios.AjustePasso | src/api/src/routes/inventarios.routes.ts:522-555 | one loop iteration adds at most one movement and sets at most one stock row |
| Inventarios.AplicarAjustes | src/api/src/routes/inventarios.routes.ts:521-555 | the loop marks all lines adjusted, writes exactly `EstoqueAjustado` and `MovimentosAjuste`, and counts the divergent lines |
| Inventarios.Inventarios.constructor | src/api/src/routes/inventarios.routes.ts:11 | the given locations, products and stock with no inventories or movements, and the invariant holds |
| Inventarios.Inventarios.Criar | src/api/src/routes/inventarios.routes.ts:192-252 | 404 for a location of another company, 400 when the location already has an active inventory; otherwise a draft numbered `MAX+1` is appended |
| Inventarios.Selecionar | src/api/src/routes/inventarios.routes.ts:271-309 | the product loop produces exactly the `Snapshot` of the catalogue |
| Inventarios.Inventarios.GerarItens | src/api/src/routes/inventarios.routes.ts:255-315 | only a draft; its lines are replaced by the `Snapshot` |
| Inventarios.Inventarios.Iniciar | src/api/src/routes/inventarios.routes.ts:318-354 | 404 unless a draft, 400 when it has no lines; otherwise EM_ANDAMENTO |
| Inventarios.Inventarios.Contagem | src/api/src/routes/inventarios.routes.ts:357-402 | 404 unless in progress, 400 for an invalid count, 404 for a product not on the list; otherwise `Contar` |
| Inventarios.Inventarios.ContagemLote | src/api/src/routes/inventarios.routes.ts:405-447 | 404 unless in progress, 400 for an empty list; otherwise `ContarLote`, reporting the number of valid entries however many lines they hit |
| Inventarios.Inventarios.Finalizar | src/api/src/routes/inventarios.routes.ts:450-493 | 404 unless in progress, 400 with the pending count when a line is uncounted; otherwise FINALIZADO |
| Inventarios.Inventarios.AjustarEstoque | src/api/src/routes/inventarios.routes.ts:496-573 | 404 unless finalized, 400 when nothing diverges; otherwise the stock, movements and marks of `AplicarAjustes`, and status AJUSTADO |
| Inventarios.Inventarios.Cancelar | src/api/src/routes/inventarios.routes.ts:576-602 | only a draft or in-progress inventory is cancelled; otherwise 404 |
| Inventarios.Inventarios.Estatisticas | src/api/src/routes/inventarios.routes.ts:136-189 | 404 for an unknown inventory; otherwise the statistics of its lines |
| Compras.ObservacaoRejeicao | src/api/src/routes/compras.routes.ts:258-264 | the stored notes are the old notes followed by `' \| '` (or nothing when null), then `REJEITADA: ` and the reason, or `Sem motivo informado` when it is empty |
| Compras.LocalizarRequisicao | src/api/src/routes/compras.routes.ts:222-224 | a found requisition has the id and the company; none found means no row has both |
| Compras.NumerosRequisicoes | src/api/src/routes/compras.routes.ts:180-184 | every number the company uses is among the numbers scanned for the next one |
| Compras.LinhasRequisicao | src/api/src/routes/compras.routes.ts:197-203 | one line row per input line, with its product and quantity, and the note stored iff it is a non-empty string |
| Compras.Requisitar | src/api/src/routes/compras.routes.ts:180-205 | one PENDENTE row appended with the given fields, priority NORMAL when absent, no approver, and its lines stored with `observacao || null`, numbered above every number of the company; earlier rows unchanged |
| Compras.MarcarEmCotacao | src/api/src/routes/compras.routes.ts:419-424 | exactly the rows with the linked requisition id become EM_COTACAO; every other row is kept |
| Compras.LocalizarCotacao | src/api/src/routes/compras.routes.ts:444-448 | a found quotation has the id and the company |
| Compras.NumerosCotacoes | src/api/src/routes/compras.routes.ts:384-388 | every number the company uses is among the numbers scanned |
| Compras.Cotar | src/api/src/routes/compras.routes.ts:384-417 | one ABERTA quotation appended with its lines and one unanswered, unselected supplier row per invited supplier, in order, numbered above the company's numbers |
| Compras.TotalResposta | src/api/src/routes/compras.routes.ts:466-468 | a non-negative price over non-negative quantities gives a non-negative total |
| Compras.TotalRespostaProporcional | src/api/src/routes/compras.routes.ts:466-468 | the reduced total is the unit price times the sum of the quantities |
| Compras.Responder | src/api/src/routes/compras.routes.ts:470-484 | only the answering supplier's row changes: answered, with the answer and the computed total; status and lines are kept |
| Compras.Selecionar | src/api/src/routes/compras.routes.ts:504-516 | the quotation becomes FINALIZADA and a row is selected iff it is the chosen supplier's; nothing else in the rows changes |
| Compras.SelecionarUmVencedor | src/api/src/routes/compras.routes.ts:504-512 | after selection every selected row names one supplier, and an invited supplier is selected |
| Compras.ResponderMantemVencedor | src/api/src/routes/compras.routes.ts:470-484 | answering a quotation keeps its single winner |
| Compras.VencedoresAtualizar | src/api/src/routes/compras.routes.ts:504-516 | replacing one quotation by one with a single winner keeps the table invariant |
| Compras.VencedoresAcrescentar | src/api/src/routes/compras.routes.ts:391-417 | appending a quotation with a single winner keeps the table invariant |
| Compras.ItemPedidoDe | src/api/src/routes/compras.routes.ts:653-662 | a stored order line totals quantity times unit price and starts with nothing received |
| Compras.ItensPedido | src/api/src/routes/compras.routes.ts:653-662 | one stored line per input line, in order |
| Compras.TotalPedidoDosItens | src/api/src/routes/compras.routes.ts:639-662 | the header total equals the sum of the stored line totals |
| Compras.TotalPedidoPositivo | src/api/src/routes/compras.routes.ts:639 | valid lines (positive quantity and price, at least one line) give a positive total |
| Compras.Encomendar | src/api/src/routes/compras.routes.ts:632-662 | one RASCUNHO order appended with its lines and the total of its lines, numbered above the company's numbers |
| Compras.EncomendarCoerente | src/api/src/routes/compras.routes.ts:632-662 | creating an order keeps every order's total equal to its lines |
| Compras.PedidosAtualizar | src/api/src/routes/compras.routes.ts:784-793 | replacing one order by a coherent one keeps the table coherent |
| Compras.PedidosAcrescentar | src/api/src/routes/compras.routes.ts:642-662 | appending a coherent order keeps the table coherent |
| Compras.LocalizarPedido | src/api/src/routes/compras.routes.ts:682-684 | a found order has the id and the company |
| Compras.PedidoNoEstado | src/api/src/routes/compras.routes.ts:727-729 | a found order has the id, the company and one of the accepted statuses |
| Compras.NumerosPedidos | src/api/src/routes/compras.routes.ts:632-636 | every number the company uses is among the numbers scanned |
| Compras.EntradaItem | src/api/src/routes/compras.routes.ts:749-770 | receiving a line adds at most the stock row of its product at the receiving location |
| Compras.RecebimentoPasso | src/api/src/routes/compras.routes.ts:748-787 | one loop iteration extends the stock and the movements by one line |
| Compras.EntradaSoNoLocal | src/api/src/routes/compras.routes.ts:748-787 | receiving creates rows only at the receiving location and leaves other locations unchanged |
| Compras.EntradaCriaLinhas | src/api/src/routes/compras.routes.ts:749-770 | after receiving every product of the order has a stock row at the location |
| Compras.EntradaSoma | src/api/src/routes/compras.routes.ts:748-770 | the quantity at the location grows by exactly the ordered quantity of that product |
| Compras.MovimentosCompra | src/api/src/routes/compras.routes.ts:772-781 | one ENTRADA movement per order line, in order |
| Compras.ReceberItens | src/api/src/routes/compras.routes.ts:748-793 | the loop writes exactly `EntradaCompra`, `MovimentosCompra` and the received order |
| Compras.PedidoRecebido | src/api/src/routes/compras.routes.ts:784-793 | the order becomes RECEBIDO with the invoice number, every line received in full |
| Compras.PedidoRecebidoCoerente | src/api/src/routes/compras.routes.ts:784-793 | receiving keeps the order coherent and its total unchanged |
| Compras.MesmosTotais | src/api/src/routes/compras.routes.ts:784 | marking lines received does not change their sum |
| Compras.SomarItens | src/api/src/routes/compras.routes.ts:639 | the reduce loop computes the sum of quantity times unit price |
| Compras.Compras.constructor | src/api/src/routes/compras.routes.ts:11-13 | empty tables over the given stock |
| Compras.Compras.CriarRequisicao | src/api/src/routes/compras.routes.ts:167-215 | 400 for a priority outside BAIXA, NORMAL, ALTA, URGENTE or for invalid lines; otherwise `Requisitar`; the other tables are unchanged |
| Compras.Compras.DecidirRequisicao | src/api/src/routes/compras.routes.ts:218-269 | 404 unless a PENDENTE requisition of the company; approve sets APROVADA and the approver, reject sets REJEITADA and appends the reason to the notes |
| Compras.Compras.CriarCotacao | src/api/src/routes/compras.routes.ts:371-436 | 400 for invalid data; otherwise `Cotar`, and a linked requisition becomes EM_COTACAO |
| Compras.Compras.ResponderCotacao | src/api/src/routes/compras.routes.ts:439-489 | 404 unless the supplier was invited to a quotation of the company, then 400 for an invalid answer; otherwise `Responder` |
| Compras.Compras.SelecionarVencedor | src/api/src/routes/compras.routes.ts:492-519 | 404 unless an ABERTA quotation of the company; otherwise `Selecionar` |
| Compras.Compras.CriarPedido | src/api/src/routes/compras.routes.ts:619-675 | 400 for invalid lines; otherwise `Encomendar` |
| Compras.Compras.MudarStatusPedido | src/api/src/routes/compras.routes.ts:678-719 | send (RASCUNHO to ENVIADO), confirm (ENVIADO to CONFIRMADO) and cancel (RASCUNHO or ENVIADO to CANCELADO): 404 unless the order is in an accepted status, otherwise only its status changes |
| Compras.Compras.ReceberPedido | src/api/src/routes/compras.routes.ts:722-807 | 404 unless ENVIADO or CONFIRMADO, 400 with neither a given nor a delivery location; otherwise the stock, the movements and the received order of `ReceberItens` |
| Orcamentos.ItemLimites | src/api/src/routes/orcamentos.routes.ts:233-248 | for a valid line (positive quantity and price, discount 0..100 %) the discount lies between zero and the subtotal, so the line total is between zero and the subtotal |
| Orcamentos.ItensDe | src/api/src/routes/orcamentos.routes.ts:229-251 | one stored line per input line, numbered 1, 2, … in input order |
| Orcamentos.ItensDeSomas | src/api/src/routes/orcamentos.routes.ts:192-251 | the stored lines' subtotals, discounts and totals sum to the header's subtotal, discount and subtotal minus discount |
| Orcamentos.SomarItens | src/api/src/routes/orcamentos.routes.ts:192-200 | the accumulating loop computes the sums of the line subtotals and of the line discounts |
| Orcamentos.CoerentesAtualizar | src/api/src/routes/orcamentos.routes.ts:576-589 | replacing one quote by a sequenced one that is totalled (unless its create threw midway) keeps the table's invariant |
| Orcamentos.CoerentesAcrescentar | src/api/src/routes/orcamentos.routes.ts:209-251 | appending such a quote keeps the table's invariant |
| Orcamentos.Recalcular | src/api/src/routes/orcamentos.routes.ts:564-590 | the header totals become the sums of the lines, the total including the freight; lines, status and freight are kept |
| Orcamentos.RecalcularEstavel | src/api/src/routes/orcamentos.routes.ts:564-590 | recalculating changes nothing exactly when the header already matches its lines |
| Orcamentos.Localizar | src/api/src/routes/orcamentos.routes.ts:277-283 | a found quote has the id and the company; none found means no row has both |
| Orcamentos.NumerosOrcamentos | src/api/src/routes/orcamentos.routes.ts:176-181 | every number used by the company and branch is among those scanned |
| Orcamentos.NumerosPedidos | src/api/src/routes/orcamentos.routes.ts:488-493 | every sales-order number used by the company and branch is among those scanned |
| Orcamentos.NovoCoerente | src/api/src/routes/orcamentos.routes.ts:176-251 | a new quote is a totalled, sequenced RASCUNHO with a stored freight of 0 and no order, numbered above every number of its company and branch |
| Orcamentos.OrcarCoerentes | src/api/src/routes/orcamentos.routes.ts:209-251 | a completed create keeps the table's invariant |
| Orcamentos.ProdutoAusente | src/api/src/routes/orcamentos.routes.ts:230-235 | the first input line whose product does not exist, every earlier one existing; none iff every product exists |
| Orcamentos.InserirItens | src/api/src/routes/orcamentos.routes.ts:228-251 | the line loop stores the lines in order and stops at the first missing product (where `produto.codigo` throws), having stored exactly the lines before it |
| Orcamentos.ProdutoAusenteEm | src/api/src/routes/orcamentos.routes.ts:230-235 | the line at k is the first missing product when its product is missing and every earlier one exists |
| Orcamentos.Inserido | src/api/src/routes/orcamentos.routes.ts:209-251 | the table after the writes of a create that passed its checks: the complete new quote when every product exists, otherwise the quote cut at the first missing product |
| Orcamentos.Orcado | src/api/src/routes/orcamentos.routes.ts:192-251 | the totals loop, the header insert and the line loop produce `Inserido`, and the table keeps its invariant with the quote exempted exactly when the loop threw |
| Orcamentos.CoerentesExcecao | src/api/src/routes/orcamentos.routes.ts:209-251 | exempting one more quote keeps the table's invariant |
| Orcamentos.SubtotalSinal | src/api/src/routes/orcamentos.routes.ts:195-200 | a valid line's subtotal is not negative, and positive when its price is |
| Orcamentos.Criacao | src/api/src/routes/orcamentos.routes.ts:154-251 | the create's response: 400 for invalid data, then 404 for a client of another company, then 500 for a product that does not exist, else success; only the last two follow valid data |
| Orcamentos.ItensDePrefixo | src/api/src/routes/orcamentos.routes.ts:228-251 | the lines stored before the throw are those a create of just the earlier inputs stores |
| Orcamentos.Truncado | src/api/src/routes/orcamentos.routes.ts:209-251 | after a throw at line j the stored quote is RASCUNHO with the header sums of every input line but only the first j lines, still numbered in order |
| Orcamentos.TruncadoDescompasso | src/api/src/routes/orcamentos.routes.ts:209-251 | when the missing line has a positive price the stored header no longer equals the sum over the stored lines |
| Orcamentos.SubtotalAlemDoPrefixo | src/api/src/routes/orcamentos.routes.ts:195-200 | dropping a positively priced valid line lowers the sum of the subtotals |
| Orcamentos.NovoNaoNegativo | src/api/src/routes/orcamentos.routes.ts:192-202 | with valid lines the discount lies between zero and the subtotal and the total is non-negative |
| Orcamentos.ComEdicao | src/api/src/routes/orcamentos.routes.ts:289-318 | each allow-listed body field that is not `undefined` is written (`null` clears the column), every other field is kept, then the totals are recalculated with the new freight |
| Orcamentos.FreteNulo | src/api/src/routes/orcamentos.routes.ts:576-581 | a `null` freight counts as 0 in the recalculated total (`COALESCE`) |
| Orcamentos.EditarVazio | src/api/src/routes/orcamentos.routes.ts:289-318 | an edit whose body has none of the fields leaves a totalled quote as it was |
| Orcamentos.MaxSequencia | src/api/src/routes/orcamentos.routes.ts:358-361 | `MAX(sequencia)` bounds every line's number and is 0 for no lines |
| Orcamentos.AcrescentarItem | src/api/src/routes/orcamentos.routes.ts:358-381 | the new line is appended numbered after the largest number, the quote keeps its id and stays totalled and sequenced |
| Orcamentos.AcrescentarSoma | src/api/src/routes/orcamentos.routes.ts:362-381 | adding a line raises subtotal, discount and total by exactly that line's amounts |
| Orcamentos.SemItem | src/api/src/routes/orcamentos.routes.ts:399-400 | a line remains iff it was there and has another id |
| Orcamentos.SemItemSequenciado | src/api/src/routes/orcamentos.routes.ts:399-400 | removing a line keeps the remaining numbers increasing |
| Orcamentos.SemItemSequenciado0 | src/api/src/routes/orcamentos.routes.ts:399-400 | the same, for a list that may not be sequenced |
| Orcamentos.ComRemocao | src/api/src/routes/orcamentos.routes.ts:399-402 | the line is removed and the totals are recalculated; id and status are kept |
| Orcamentos.Mudar | src/api/src/routes/orcamentos.routes.ts:420-459 | a step from its only predecessor sets the new status and keeps the id, the lines and the header sums |
| Orcamentos.MudarAvanca | src/api/src/routes/orcamentos.routes.ts:420-459 | each step advances one place along rascunho, enviado, aprovado, convertido |
| Orcamentos.PedidoDe | src/api/src/routes/orcamentos.routes.ts:498-535 | the sales order carries the quote's company, branch, client and totals and a copy of every line |
| Orcamentos.PedidoGerado | src/api/src/routes/orcamentos.routes.ts:488-535 | the sales order is `PedidoDe` the quote, numbered above every sales order of its company and branch |
| Orcamentos.Convertida | src/api/src/routes/orcamentos.routes.ts:538-540 | an approved quote becomes CONVERTIDO pointing at the new order, and stays coherent |
| Orcamentos.Orcamentos.constructor | src/api/src/routes/orcamentos.routes.ts:11 | empty tables over the given clients and products |
| Orcamentos.Orcamentos.Criar | src/api/src/routes/orcamentos.routes.ts:154-269 | answers `Criacao`; on success and on the 500 the table becomes `Inserido` (on the 500 the header and the earlier lines stay stored); only success writes the history row with no previous status |
| Orcamentos.Orcamentos.Inserir | src/api/src/routes/orcamentos.routes.ts:206-251 | the create's writes after its checks: the table becomes `Inserido` and keeps its invariant; the loop stops at the first missing product (`ProdutoAusente`), which is exactly when the quote joins the exempted set |
| Orcamentos.Orcamentos.Editar | src/api/src/routes/orcamentos.routes.ts:272-321 | 404 for an unknown quote, 400 unless RASCUNHO or ENVIADO; otherwise `ComEdicao` |
| Orcamentos.Orcamentos.AdicionarItem | src/api/src/routes/orcamentos.routes.ts:324-384 | 400 for an invalid line, 404 for an unknown quote, 400 unless editable, 404 for a product of another company; otherwise `AcrescentarItem` |
| Orcamentos.Orcamentos.RemoverItem | src/api/src/routes/orcamentos.routes.ts:387-405 | 400 for an unknown or non-editable quote; otherwise `ComRemocao` |
| Orcamentos.Orcamentos.Avancar | src/api/src/routes/orcamentos.routes.ts:408-468 | send and approve: 404 for an unknown quote, 400 unless in the predecessor status or, when approving, when expired; otherwise `Mudar` and one history row |
| Orcamentos.Orcamentos.Converter | src/api/src/routes/orcamentos.routes.ts:471-561 | 404 for an unknown quote, 400 unless APROVADO; otherwise the new sales order, the converted quote and one history row naming the order's number |
| NotasFiscais.Totalizar | src/api/src/routes/notas-fiscais.routes.ts:312-332 | the accumulating loop over the lines computes exactly the header totals `TotaisDe` (products, each tax, discounts, with absent values as 0) |
| NotasFiscais.ItensDe | src/api/src/routes/notas-fiscais.routes.ts:363-386 | one stored line per input line, numbered 1, 2, … in input order |
| NotasFiscais.ItensDeSoma | src/api/src/routes/notas-fiscais.routes.ts:363-386 | a column that each stored line copies from its input line sums to the same total |
| NotasFiscais.ItensDeSomas | src/api/src/routes/notas-fiscais.routes.ts:320-386 | the header totals equal the sums of the corresponding columns of the stored lines |
| NotasFiscais.CartasAcrescentar | src/api/src/routes/notas-fiscais.routes.ts:555-568 | appending a correction letter numbered one above the note's letters keeps every note's letters numbered 1, 2, … |
| NotasFiscais.CartasDeAcrescentar | src/api/src/routes/notas-fiscais.routes.ts:555-559 | the count of a note's letters grows by one exactly for a letter of that note |
| NotasFiscais.Localizar | src/api/src/routes/notas-fiscais.routes.ts:424-428 | a found note has the id and the company; none found means no row has both |
| NotasFiscais.NumerosSerie | src/api/src/routes/notas-fiscais.routes.ts:629-632 | every number of the company, branch and type is among those scanned |
| NotasFiscais.NumeroNFeAcima | src/api/src/routes/notas-fiscais.routes.ts:628-635 | the next number is the largest numeric value of the series plus one, so above every number in it |
| NotasFiscais.NovaCoerente | src/api/src/routes/notas-fiscais.routes.ts:312-386 | a new note is a totalled, unnumbered RASCUNHO whose products value is the sum of quantity × unit price and whose lines are numbered in order |
| NotasFiscais.EmitirCoerentes | src/api/src/routes/notas-fiscais.routes.ts:334-386 | creating a note with a fresh id keeps every note totalled, numbers unique per series and ids unique |
| NotasFiscais.IdsAtualizar | src/api/src/routes/notas-fiscais.routes.ts:445-456 | rewriting a note in place keeps ids unique |
| NotasFiscais.AutorizarUnicos | src/api/src/routes/notas-fiscais.routes.ts:441-456 | authorising a note keeps numbers unique within its series |
| NotasFiscais.AutorizarCoerentes | src/api/src/routes/notas-fiscais.routes.ts:441-456 | authorising a note keeps the table coherent |
| NotasFiscais.AutorizarNumeroNovo | src/api/src/routes/notas-fiscais.routes.ts:441-456 | the authorised note is AUTORIZADA, series 1, numbered the series' maximum plus one, and no other note of the series has that number |
| NotasFiscais.ComCancelamento | src/api/src/routes/notas-fiscais.routes.ts:502-510 | cancelling keeps the number, the lines, the total and coherence |
| NotasFiscais.CoerentesAtualizar | src/api/src/routes/notas-fiscais.routes.ts:502-510 | replacing a note by a coherent one with the same key and number keeps the table coherent |
| NotasFiscais.NotasFiscais.constructor | src/api/src/routes/notas-fiscais.routes.ts:11 | empty tables |
| NotasFiscais.NotasFiscais.Criar | src/api/src/routes/notas-fiscais.routes.ts:299-415 | 400 for invalid data; otherwise the new draft of `Emitir` |
| NotasFiscais.NotasFiscais.Transmitir | src/api/src/routes/notas-fiscais.routes.ts:418-476 | 404 for an unknown note, 400 unless RASCUNHO or REJEITADA; otherwise the note is authorised with the next number and one authorisation event is appended |
| NotasFiscais.NotasFiscais.Cancelar | src/api/src/routes/notas-fiscais.routes.ts:479-530 | 400 for a justification shorter than 15, 404 for an unknown note, 400 unless AUTORIZADA; otherwise CANCELADA and one cancellation event |
| NotasFiscais.NotasFiscais.RegistrarCarta | src/api/src/routes/notas-fiscais.routes.ts:533-580 | 400 for a correction outside 15..1000 characters, 404 for an unknown note, 400 unless AUTORIZADA; otherwise one letter event numbered one above the note's letters, returned as `sequencia` |
| Trocas.DevolvidoDe | src/api/src/routes/trocas.routes.ts:159-166 | a stored returned line keeps the id, product, quantity and unit price, and stores the reason iff it is a non-empty string |
| Trocas.DevolvidosDe | src/api/src/routes/trocas.routes.ts:159-166 | one stored returned line per input line, in order, each `DevolvidoDe` its input line |
| Trocas.NovosDe | src/api/src/routes/trocas.routes.ts:168-176 | one stored new line per input line, in order |
| Trocas.DevolvidosDeValor | src/api/src/routes/trocas.routes.ts:138 | the returned value is the sum of quantity × unit price over the stored returned lines |
| Trocas.NovosDeValor | src/api/src/routes/trocas.routes.ts:139 | the new value is the sum of quantity × unit price over the stored new lines |
| Trocas.DaEmpresaCresce | src/api/src/routes/trocas.routes.ts:143-146 | the company's count grows past every earlier exchange of that company |
| Trocas.NumerosDistintos | src/api/src/routes/trocas.routes.ts:143-146 | since exchanges are never deleted, two exchanges of one company never share a `TRO` number |
| Trocas.NumeradasAtualizar | src/api/src/routes/trocas.routes.ts:214-216 | rewriting an exchange that keeps its number and company keeps the numbering invariant |
| Trocas.DaEmpresaIgual | src/api/src/routes/trocas.routes.ts:143-145 | the count depends only on the companies of the rows |
| Trocas.NovaValorada | src/api/src/routes/trocas.routes.ts:136-157 | a new exchange is SOLICITADA, numbered `TRO` + the company's count + 1 in six digits, with the returned and new values summed from its lines (0 without new lines) |
| Trocas.SolicitarNumeradas | src/api/src/routes/trocas.routes.ts:143-157 | creating an exchange keeps the numbering invariant |
| Trocas.LocalizarDevolvido | src/api/src/routes/trocas.routes.ts:258-264 | a found line has the id; none found iff no line has it |
| Trocas.ProcessarLinhas | src/api/src/routes/trocas.routes.ts:257-281 | recording receipts keeps every line's id, product, quantity and price |
| Trocas.ProcessarMovimentos | src/api/src/routes/trocas.routes.ts:274-280 | every movement written is an ENTRADA of a returned line's product in BOM condition with a positive quantity |
| Trocas.ConhecidosAcrescentar | src/api/src/routes/trocas.routes.ts:257-264 | all receipts are known iff the earlier ones are and the last one is |
| Trocas.ProcessarCompleto | src/api/src/routes/trocas.routes.ts:257-264 | the loop runs to the end iff every receipt names a line of the exchange |
| Trocas.LocalizarMesmasLinhas | src/api/src/routes/trocas.routes.ts:258-264 | lines with the same ids are found at the same place |
| Trocas.MesmasLinhasValor | src/api/src/routes/trocas.routes.ts:257-281 | recording receipts does not change the returned value |
| Trocas.ReceberItens | src/api/src/routes/trocas.routes.ts:257-282 | the loop computes exactly `Processar`, stopping at the first unknown line |
| Trocas.ProcessarParado | src/api/src/routes/trocas.routes.ts:262-264 | once the loop has stopped, later receipts change nothing |
| Trocas.Saidas | src/api/src/routes/trocas.routes.ts:315-322 | one SAIDA movement per new line, in order, of its product and quantity |
| Trocas.BaixarNovos | src/api/src/routes/trocas.routes.ts:315-322 | the loop writes exactly `Saidas` |
| Trocas.Localizar | src/api/src/routes/trocas.routes.ts:201-207 | a found exchange has the id and the company; none found means no row has both |
| Trocas.CoerentesAtualizar | src/api/src/routes/trocas.routes.ts:214-327 | rewriting an exchange with consistent values, same number and company keeps the table invariant |
| Trocas.Trocas.constructor | src/api/src/routes/trocas.routes.ts:10 | empty tables |
| Trocas.Trocas.Criar | src/api/src/routes/trocas.routes.ts:125-186 | 400 for invalid data; otherwise `Solicitar` appends the new exchange, its returned lines stored with `motivo || null` |
| Trocas.Trocas.Aprovar | src/api/src/routes/trocas.routes.ts:189-220 | 404 for an unknown exchange, 400 unless SOLICITADA; otherwise APROVADA with the approver and notes |
| Trocas.Trocas.Receber | src/api/src/routes/trocas.routes.ts:223-290 | 400 for invalid receipts, 404 unknown, 400 unless APROVADA; an unknown line gives 404 keeping the receipts and movements written before it; otherwise PRODUTOS_RECEBIDOS |
| Trocas.Trocas.Finalizar | src/api/src/routes/trocas.routes.ts:293-334 | 404 unknown, 400 unless PRODUTOS_RECEBIDOS; otherwise the SAIDA movements of the new lines and FINALIZADA |
| Trocas.Trocas.Cancelar | src/api/src/routes/trocas.routes.ts:337-371 | 400 without a reason, 404 unknown, 400 when FINALIZADA; otherwise CANCELADA with reason and user |
| ConfiguracoesSistema.Existente | src/api/src/routes/configuracoes-sistema.routes.ts:83-85 | the first row matching company, key, branch (null matching null) and, for the fiscal save, group; none iff no row matches |
| ConfiguracoesSistema.Buscar | src/api/src/routes/configuracoes-sistema.routes.ts:49-71 | with a branch, the branch's own row when there is one, else the company-wide row; without a branch only a company-wide row |
| ConfiguracoesSistema.SalvarEfeito | src/api/src/routes/configuracoes-sistema.routes.ts:83-97 | after the upsert the key holds the new value; an existing row changes only its value, otherwise one row is appended with group `grupo \|\| 'GERAL'`; no other row changes |
| ConfiguracoesSistema.ExistenteIgual | src/api/src/routes/configuracoes-sistema.routes.ts:83-91 | changing only values does not change which row a lookup finds |
| ConfiguracoesSistema.ExistenteAcrescentar | src/api/src/routes/configuracoes-sistema.routes.ts:93-96 | after an append the lookup finds the old match, or the new row when it matches |
| ConfiguracoesSistema.SalvarOutraChave | src/api/src/routes/configuracoes-sistema.routes.ts:83-97 | saving one key leaves the lookup of every other key and its row unchanged |
| ConfiguracoesSistema.SalvarTodasUltimo | src/api/src/routes/configuracoes-sistema.routes.ts:110-127 | after the loop a key holds the value of its last entry in the batch |
| ConfiguracoesSistema.SalvarLote | src/api/src/routes/configuracoes-sistema.routes.ts:110-127 | the loop performs exactly the sequence of upserts `SalvarTodas` |
| ConfiguracoesSistema.SalvarUnicas | src/api/src/routes/configuracoes-sistema.routes.ts:83-97 | an upsert keeps at most one row per company, key, branch and group |
| ConfiguracoesSistema.SalvarTodasUnicas | src/api/src/routes/configuracoes-sistema.routes.ts:110-127 | a batch of upserts keeps that uniqueness |
| ConfiguracoesSistema.EntradasFiscais | src/api/src/routes/configuracoes-sistema.routes.ts:299-315 | one FISCAL entry per body property, in order, holding `String(valor)` |
| ConfiguracoesSistema.LocalizarSequencia | src/api/src/routes/configuracoes-sistema.routes.ts:162-172 | a found sequence has the company, type and branch; none iff no row has all three |
| ConfiguracoesSistema.ProximoValor | src/api/src/routes/configuracoes-sistema.routes.ts:178-179 | the next number is the prefix, the digits of `ultimo + 1` and the suffix, and its middle reads back as `ultimo + 1` |
| ConfiguracoesSistema.ConsumosDistintos | src/api/src/routes/configuracoes-sistema.routes.ts:206-212 | different numbers of consumptions give different formatted numbers |
| ConfiguracoesSistema.ConfigurarValidas | src/api/src/routes/configuracoes-sistema.routes.ts:238-264 | configuring keeps one sequence per company, type and branch, with non-negative counters |
| ConfiguracoesSistema.ConfigurarEfeito | src/api/src/routes/configuracoes-sistema.routes.ts:244-264 | the configured sequence has the given size and, when given, the given last number; a new one starts at the given number or 0 |
| ConfiguracoesSistema.UnicaLocalizada | src/api/src/routes/configuracoes-sistema.routes.ts:239-242 | under uniqueness the lookup finds exactly the row with that company, type and branch |
| ConfiguracoesSistema.Configuracoes.constructor | src/api/src/routes/configuracoes-sistema.routes.ts:10 | empty tables |
| ConfiguracoesSistema.Configuracoes.Atualizar | src/api/src/routes/configuracoes-sistema.routes.ts:74-100 | PUT /:chave is one upsert matching in any group |
| ConfiguracoesSistema.Configuracoes.AtualizarLote | src/api/src/routes/configuracoes-sistema.routes.ts:103-130 | the batch is the upserts of its entries in order, and the count reported is the number of entries |
| ConfiguracoesSistema.Configuracoes.SalvarFiscal | src/api/src/routes/configuracoes-sistema.routes.ts:294-320 | the fiscal save is the upserts of `EntradasFiscais` matching only in group FISCAL |
| ConfiguracoesSistema.Configuracoes.Espiar | src/api/src/routes/configuracoes-sistema.routes.ts:157-182 | 404 for an unconfigured sequence; otherwise the formatted next number and `ultimo + 1`, changing nothing |
| ConfiguracoesSistema.Configuracoes.Consumir | src/api/src/routes/configuracoes-sistema.routes.ts:185-215 | 404 for an unconfigured sequence; otherwise the same number as `Espiar` and the counter advances by one |
| ConfiguracoesSistema.Configuracoes.ConfigurarSequencia | src/api/src/routes/configuracoes-sistema.routes.ts:218-267 | 400 for invalid data; otherwise `Configurar` |
| Patrimonio.CategoriaDe | src/api/src/routes/patrimonio.routes.ts:39-62 | a created category has a useful life of at least 12 months (60 when absent) and an annual rate between 0 and 100 |
| Patrimonio.Taxa | src/api/src/routes/patrimonio.routes.ts:393-397 | an asset's rate is known iff its category exists |
| Patrimonio.Localizar | src/api/src/routes/patrimonio.routes.ts:153-161 | a found asset has the id and the company; none iff no row has both |
| Patrimonio.Alterado | src/api/src/routes/patrimonio.routes.ts:253-270 | only the six allow-listed fields can change; each nullable one the body has is written, `null` clearing the column, and an edit supplying none of them changes nothing |
| Patrimonio.ComBaixa | src/api/src/routes/patrimonio.routes.ts:293-299 | the write-off sets BAIXADO and the reason, and changes only status, reason, value and notes |
| Patrimonio.MovimentoTransferencia | src/api/src/routes/patrimonio.routes.ts:340-349 | the transfer movement records the asset, its old location and responsible, and the destination |
| Patrimonio.DepreciadoConcat | src/api/src/routes/patrimonio.routes.ts:394 | the depreciation of an asset over two lists of rows is the sum of the two |
| Patrimonio.DepreciadoAusente | src/api/src/routes/patrimonio.routes.ts:394 | an asset with no rows has depreciated 0 (`COALESCE(SUM(valor), 0)`) |
| Patrimonio.CompetenciaPartes | src/api/src/routes/patrimonio.routes.ts:378 | the period text is the year, a dash and the month in two digits that read back as the month |
| Patrimonio.MesDoisDigitos | src/api/src/routes/patrimonio.routes.ts:378 | a month 1..12 pads to two digits reading back as the month |
| Patrimonio.CompetenciaInjective | src/api/src/routes/patrimonio.routes.ts:378 | two periods have the same text iff they have the same year and month |
| Patrimonio.Elegiveis | src/api/src/routes/patrimonio.routes.ts:392-398 | the run considers only ATIVO assets of the company whose category has a positive rate |
| Patrimonio.QuotaLimitada | src/api/src/routes/patrimonio.routes.ts:404-418 | a monthly quota never exceeds the residual value, and is 0 when nothing is left |
| Patrimonio.LancamentosForma | src/api/src/routes/patrimonio.routes.ts:403-430 | each row written is positive, for the period, and of a considered asset |
| Patrimonio.DepreciadoLancamentos | src/api/src/routes/patrimonio.routes.ts:403-430 | the run writes at most one row per considered asset, of its quota, and none for other assets |
| Patrimonio.ElegiveisUnicos | src/api/src/routes/patrimonio.routes.ts:392-398 | the considered assets have distinct ids |
| Patrimonio.Depreciar | src/api/src/routes/patrimonio.routes.ts:400-430 | the loop writes exactly `Lancamentos`, and reports their sum and their count |
| Patrimonio.DepreciarLimitados | src/api/src/routes/patrimonio.routes.ts:392-430 | after a run no asset is depreciated beyond its acquisition value and every row names an asset |
| Patrimonio.LancamentosTotal | src/api/src/routes/patrimonio.routes.ts:420-428 | the reported total is the sum of the quotas written |
| Patrimonio.ConsistenteAcrescentar | src/api/src/routes/patrimonio.routes.ts:222-242 | registering an asset with a fresh id and a free tag keeps ids and tags unique and the depreciation bounded |
| Patrimonio.ConsistenteSubstituir | src/api/src/routes/patrimonio.routes.ts:264-299 | changing an asset's other fields keeps the table consistent |
| Patrimonio.Patrimonio.constructor | src/api/src/routes/patrimonio.routes.ts:10 | empty tables |
| Patrimonio.Patrimonio.CriarCategoria | src/api/src/routes/patrimonio.routes.ts:34-65 | 400 for invalid data; otherwise the category is appended |
| Patrimonio.Patrimonio.Criar | src/api/src/routes/patrimonio.routes.ts:195-245 | 400 for invalid data, 409 when the tag exists in the company; otherwise the asset is appended |
| Patrimonio.Patrimonio.Detalhe | src/api/src/routes/patrimonio.routes.ts:149-192 | 404 for an unknown asset; otherwise the accumulated depreciation and the residual, which lies between 0 and the acquisition value |
| Patrimonio.Patrimonio.Atualizar | src/api/src/routes/patrimonio.routes.ts:248-272 | the located asset becomes `Alterado`, so a `null` in the body clears its column; an unknown one changes nothing |
| Patrimonio.Patrimonio.Baixar | src/api/src/routes/patrimonio.routes.ts:275-310 | 400 for a negative value; otherwise a BAIXA movement is recorded even when no asset matches, and the located asset is written off |
| Patrimonio.Patrimonio.Transferir | src/api/src/routes/patrimonio.routes.ts:313-356 | 400 without a destination, 404 unknown; otherwise one TRANSFERENCIA movement and the new location and responsible |
| Patrimonio.Patrimonio.CalcularDepreciacao | src/api/src/routes/patrimonio.routes.ts:363-440 | 400 for a month outside 1..12, 409 when the company already has a row for the period; otherwise the rows of `Lancamentos` are appended with their count and total |
| Rotas.Alterada | src/api/src/routes/rotas.routes.ts:174-185 | an edit keeps id, company and status, never clears an assigned driver or vehicle, and supplying no field changes nothing |
| Rotas.Localizar | src/api/src/routes/rotas.routes.ts:163-169 | a found route has the id and the company; none iff no row has both |
| Rotas.Encerrada | src/api/src/routes/rotas.routes.ts:358-377 | the route becomes FINALIZADA keeping driver and vehicle; a positive final km is stored, and a body that fails validation stores neither km nor notes |
| Rotas.Sem | src/api/src/routes/rotas.routes.ts:252-257 | exactly the stops of that route and delivery are deleted, and the count reported is how many there were |
| Rotas.SemRota | src/api/src/routes/rotas.routes.ts:447 | exactly the stops of the route are deleted |
| Rotas.ComOrdem | src/api/src/routes/rotas.routes.ts:297-300 | only the stops of that route and delivery get the new order |
| Rotas.Reordenadas | src/api/src/routes/rotas.routes.ts:296-301 | the reorder loop keeps the number of stops |
| Rotas.ReordenadasPreserva | src/api/src/routes/rotas.routes.ts:296-301 | reordering changes only the order field, and only of the route's stops named in the list |
| Rotas.ReordenadasUltima | src/api/src/routes/rotas.routes.ts:296-301 | a stop named in the list ends with the order of its last mention |
| Rotas.ReordenarParadas | src/api/src/routes/rotas.routes.ts:296-301 | the loop computes exactly `Reordenadas` |
| Rotas.CompararOposto | src/api/src/routes/rotas.routes.ts:409 | comparing two CEPs the other way round gives the opposite sign |
| Rotas.CompararTransitivo | src/api/src/routes/rotas.routes.ts:409 | the CEP comparison is transitive |
| Rotas.Inserir | src/api/src/routes/rotas.routes.ts:407-415 | inserting a delivery adds exactly it to the multiset |
| Rotas.Ordenar | src/api/src/routes/rotas.routes.ts:407-415 | the sort is a permutation of the deliveries |
| Rotas.ComCepMultiset | src/api/src/routes/rotas.routes.ts:408 | having a CEP on every delivery survives a permutation |
| Rotas.AcrescentarMaior | src/api/src/routes/rotas.routes.ts:407-410 | appending a delivery whose CEP is not below any keeps the list sorted by CEP |
| Rotas.InserirLimitado | src/api/src/routes/rotas.routes.ts:407-410 | an upper bound of every CEP stays an upper bound after inserting one below it |
| Rotas.InserirPorCep | src/api/src/routes/rotas.routes.ts:407-410 | inserting into a CEP-sorted list keeps it sorted |
| Rotas.OrdenarPorCep | src/api/src/routes/rotas.routes.ts:407-410 | when every delivery has a CEP the result is sorted by CEP |
| Rotas.Buscadas | src/api/src/routes/rotas.routes.ts:395-403 | exactly the company's deliveries whose id is in the list and whose client exists (the inner `JOIN clientes`) |
| Rotas.Numeradas | src/api/src/routes/rotas.routes.ts:420-423 | each suggestion carries its position plus one |
| Rotas.EntregasDe | src/api/src/routes/rotas.routes.ts:420-423 | the deliveries of the suggestions, in order |
| Rotas.Otimizar | src/api/src/routes/rotas.routes.ts:383-427 | 400 without ids; otherwise a permutation of the fetched deliveries numbered 1, 2, …, sorted by CEP when all have one |
| Rotas.ConsistenteAcrescentar | src/api/src/routes/rotas.routes.ts:127-148 | a new PLANEJADA route with a fresh id keeps every started route with driver, vehicle and stops |
| Rotas.ConsistenteSubstituir | src/api/src/routes/rotas.routes.ts:174-185 | replacing a route that keeps its id and, unless planned, has driver, vehicle and stops keeps the table consistent |
| Rotas.ConsistenteNovaParada | src/api/src/routes/rotas.routes.ts:224-229 | adding a stop keeps the table consistent |
| Rotas.ConsistenteSemParadas | src/api/src/routes/rotas.routes.ts:252-254 | removing stops of a planned route keeps the table consistent |
| Rotas.ConsistenteReordenadas | src/api/src/routes/rotas.routes.ts:296-301 | reordering keeps the table consistent |
| Rotas.ConsistenteExcluir | src/api/src/routes/rotas.routes.ts:446-450 | deleting a planned route and its stops keeps the table consistent |
| Rotas.Roteirizacao.constructor | src/api/src/routes/rotas.routes.ts:10 | empty routes and stops over the given deliveries |
| Rotas.Roteirizacao.Criar | src/api/src/routes/rotas.routes.ts:127-148 | 400 for invalid data; otherwise the planned route is appended |
| Rotas.Roteirizacao.Atualizar | src/api/src/routes/rotas.routes.ts:151-187 | 400 for invalid data, 404 unknown, 400 when FINALIZADA; otherwise `Alterada` |
| Rotas.Roteirizacao.AdicionarEntrega | src/api/src/routes/rotas.routes.ts:190-232 | 400 for an order below 1, 404 unknown route, 400 when FINALIZADA, 404 for a delivery of another company; otherwise one stop is appended |
| Rotas.Roteirizacao.RemoverEntrega | src/api/src/routes/rotas.routes.ts:235-261 | 404 unknown, 400 unless PLANEJADA, 404 when no stop was deleted; otherwise `Sem` |
| Rotas.Roteirizacao.Reordenar | src/api/src/routes/rotas.routes.ts:264-304 | 400 for an order below 1, 404 unknown, 400 when FINALIZADA; otherwise `Reordenadas` |
| Rotas.Roteirizacao.Iniciar | src/api/src/routes/rotas.routes.ts:307-344 | 404 unknown, 400 unless PLANEJADA, 400 without driver or vehicle, 400 without stops; otherwise EM_ANDAMENTO |
| Rotas.Roteirizacao.Finalizar | src/api/src/routes/rotas.routes.ts:347-380 | 404 unknown, 400 unless EM_ANDAMENTO; otherwise `Encerrada` |
| Rotas.Roteirizacao.Excluir | src/api/src/routes/rotas.routes.ts:430-453 | 404 unknown, 400 unless PLANEJADA; otherwise the route and its stops are deleted |
| Unidades.UnidadeDe | src/api/src/routes/unidades.routes.ts:138-153 | a created unit keeps id, company and name, stores its acronym in upper case, is fractional only when asked, active unless told otherwise, with 0 decimals by default |
| Unidades.Alterada | src/api/src/routes/unidades.routes.ts:251-276 | each supplied field replaces the stored one (the acronym upper-cased), other fields are kept, and an empty edit changes nothing |
| Unidades.Localizar | src/api/src/routes/unidades.routes.ts:225-231 | a found unit has the id and the company; none iff the company has no such unit |
| Unidades.ForaId | src/api/src/routes/unidades.routes.ts:308 | exactly the rows with another id remain |
| Unidades.Direcao | src/api/src/routes/unidades.routes.ts:184-188 | the first stored conversion of the company from origin to destination; none iff there is none |
| Unidades.InversoInvolutivo | src/api/src/routes/unidades.routes.ts:205 | the reverse factor `1 / f` of a positive factor is positive, multiplies with it to 1 and inverts back to it |
| Unidades.Par | src/api/src/routes/unidades.routes.ts:195-206 | creating a conversion stores the pair: origin to destination with the factor, and back with its inverse |
| Unidades.Filtrar | src/api/src/routes/unidades.routes.ts:305-306 | exactly the rows the condition keeps remain |
| Unidades.SemPar | src/api/src/routes/unidades.routes.ts:336-340 | deleting a conversion removes both directions between its two units and nothing else |
| Unidades.SemUnidade | src/api/src/routes/unidades.routes.ts:304-306 | deleting a unit removes every conversion from or to it and nothing else |
| Unidades.Converter | src/api/src/routes/unidades.routes.ts:361-401 | 400 without origin, destination or quantity; the same unit converts with factor 1; otherwise 400 iff no conversion is stored, else quantity × factor |
| Unidades.ConverterIdaVolta | src/api/src/routes/unidades.routes.ts:384-398 | with the stored pairs, converting A to B and the result back gives the starting quantity, with the inverse factor |
| Unidades.UnidadesAcrescentar | src/api/src/routes/unidades.routes.ts:128-153 | adding an upper-case unit with a fresh id and a free acronym keeps acronyms unique per company |
| Unidades.LigadasAcrescentar | src/api/src/routes/unidades.routes.ts:138-153 | adding a unit keeps every conversion between existing units |
| Unidades.UnidadesSubstituir | src/api/src/routes/unidades.routes.ts:241-262 | an edit whose acronym is free in the company keeps acronyms unique |
| Unidades.LigadasSubstituir | src/api/src/routes/unidades.routes.ts:251-262 | editing a unit keeps every conversion between existing units |
| Unidades.ReversaDe | src/api/src/routes/unidades.routes.ts:195-206 | under the pairing invariant every conversion has its reverse |
| Unidades.ReversaAusente | src/api/src/routes/unidades.routes.ts:184-190 | with no A to B row there is no B to A row either |
| Unidades.PareadasPar | src/api/src/routes/unidades.routes.ts:195-206 | adding the pair keeps every conversion paired |
| Unidades.UnicasPar | src/api/src/routes/unidades.routes.ts:184-206 | adding a pair whose directions are both new keeps one row per direction |
| Unidades.ConversoesAcrescentar | src/api/src/routes/unidades.routes.ts:184-206 | a new pair keeps the conversions paired, unique and positive |
| Unidades.LigadasPar | src/api/src/routes/unidades.routes.ts:171-206 | a pair between two units of the company keeps every conversion between existing units |
| Unidades.FiltrarUnicas | src/api/src/routes/unidades.routes.ts:305-340 | deleting rows keeps one row per direction |
| Unidades.FiltrarPareadas | src/api/src/routes/unidades.routes.ts:305-340 | deleting rows together with their reverses keeps the pairing |
| Unidades.FiltrarPositivos | src/api/src/routes/unidades.routes.ts:305-340 | deleting rows keeps every factor positive |
| Unidades.ConversoesSemPar | src/api/src/routes/unidades.routes.ts:336-340 | deleting a conversion pair keeps the conversions valid |
| Unidades.ConversoesSemUnidade | src/api/src/routes/unidades.routes.ts:304-306 | deleting a unit's conversions keeps the conversions valid |
| Unidades.LigadasSubconjunto | src/api/src/routes/unidades.routes.ts:305-340 | any subset of conversions between existing units stays between existing units |
| Unidades.UnidadesForaId | src/api/src/routes/unidades.routes.ts:308 | deleting a unit keeps acronyms unique |
| Unidades.LigadasForaId | src/api/src/routes/unidades.routes.ts:304-308 | deleting a unit with its conversions leaves no conversion to a missing unit |
| Unidades.ReversaRecusada | src/api/src/routes/unidades.routes.ts:184-190 | once A to B is created, creating B to A is refused with 400 |
| Unidades.RepetidaRecusada | src/api/src/routes/unidades.routes.ts:184-190 | once A to B is created, creating it again is refused with 400 |
| Unidades.PorId | src/api/src/routes/unidades.routes.ts:327-333 | a found conversion has the id and the company; none iff no row has both |
| Unidades.Cadastro.constructor | src/api/src/routes/unidades.routes.ts:11 | empty units and conversions over the given products' units |
| Unidades.Cadastro.Criar | src/api/src/routes/unidades.routes.ts:116-156 | 400 for invalid data or an acronym already used in the company (case-insensitively); otherwise `UnidadeDe` is appended |
| Unidades.Cadastro.CriarConversao | src/api/src/routes/unidades.routes.ts:159-217 | the verdict (400 invalid, 404 unknown unit, 400 existing direction); when Ok the pair is appended |
| Unidades.Cadastro.Atualizar | src/api/src/routes/unidades.routes.ts:220-279 | 404 unknown, 400 invalid, 400 for an acronym used by another unit; otherwise `Alterada` |
| Unidades.Cadastro.Excluir | src/api/src/routes/unidades.routes.ts:282-320 | 404 unknown, 400 when a product uses the unit; otherwise the unit and all its conversions are deleted |
| Unidades.Cadastro.ExcluirConversao | src/api/src/routes/unidades.routes.ts:323-358 | 404 unknown; otherwise both directions between its units are deleted |
| Rh.NaEmpresa | src/api/src/routes/rh.routes.ts:133-135 | the company's employee count is at most the table size |
| Rh.NaEmpresaCresce | src/api/src/routes/rh.routes.ts:133-136 | the count of a company grows by at least one past each of its employees |
| Rh.MatriculasUnicas | src/api/src/routes/rh.routes.ts:133-136 | since employees are never deleted, two employees of one company never share a `MAT` number |
| Rh.NaEmpresaMesmas | src/api/src/routes/rh.routes.ts:133-135 | the count depends only on the rows' companies |
| Rh.NumeradasMesmas | src/api/src/routes/rh.routes.ts:172-206 | rewriting rows that keep company and number keeps the numbering invariant |
| Rh.FuncionarioDe | src/api/src/routes/rh.routes.ts:133-153 | a hired employee is active, numbered `MAT` + the company's count + 1 in five digits, with 44 weekly hours by default |
| Rh.MatriculaNova | src/api/src/routes/rh.routes.ts:133-153 | hiring keeps the numbering invariant and the new number differs from every number of the company |
| Rh.Alterado | src/api/src/routes/rh.routes.ts:168-178 | each supplied field replaces the stored one; id, company, number, active flag and dismissal are kept; an empty edit changes nothing |
| Rh.Alterados | src/api/src/routes/rh.routes.ts:172-178 | only the row with that id and company changes |
| Rh.Demitido | src/api/src/routes/rh.routes.ts:201-205 | a dismissed employee is inactive with the dismissal date and reason, keeping id, company, number and CPF |
| Rh.Demitidos | src/api/src/routes/rh.routes.ts:201-205 | only the row with that id and company changes |
| Rh.AlteracaoRepeteCpf | src/api/src/routes/rh.routes.ts:158-181 | an edit can give an employee another employee's CPF, because only the create checks it |
| Rh.NumeradasAlterados | src/api/src/routes/rh.routes.ts:172-178 | an edit keeps the numbering invariant |
| Rh.NumeradasDemitidos | src/api/src/routes/rh.routes.ts:201-205 | a dismissal keeps the numbering invariant |
| Rh.CargoDe | src/api/src/routes/rh.routes.ts:245-250 | a created position keeps id, company, name and level, and has a base salary iff a non-zero one was given |
| Rh.SemCargo | src/api/src/routes/rh.routes.ts:288 | exactly the position with that id and company is deleted |
| Rh.DemissaoLiberaCargo | src/api/src/routes/rh.routes.ts:201-205 | dismissing the only active holder of a position leaves it unoccupied, so it can be deleted |
| Rh.DepartamentoDe | src/api/src/routes/rh.routes.ts:331-336 | a created department keeps id, company and name, and has a manager iff one was given |
| Rh.FeriasDe | src/api/src/routes/rh.routes.ts:384-407 | a vacation request is SOLICITADA and unapproved, with 1..30 days and 0..10 bonus days |
| Rh.Aprovadas | src/api/src/routes/rh.routes.ts:418-421 | only the request with that id and company becomes APROVADA with the approver |
| Rh.FeriasValidasAprovadas | src/api/src/routes/rh.routes.ts:418-421 | approving keeps every request's day counts in range |
| Rh.DoDia | src/api/src/routes/rh.routes.ts:486-489 | a found record is of the employee and the day; none iff there is none |
| Rh.Aberto | src/api/src/routes/rh.routes.ts:491-499 | an ENTRADA with no record for the day opens one holding only the entry time |
| Rh.Batido | src/api/src/routes/rh.routes.ts:506-518 | a punch sets only its own field; a second ENTRADA changes nothing |
| Rh.PontosUnicosAberto | src/api/src/routes/rh.routes.ts:491-499 | opening a day keeps one record per employee and day |
| Rh.PontosUnicosBatido | src/api/src/routes/rh.routes.ts:514-518 | a punch keeps one record per employee and day |
| Rh.DiaCompleto | src/api/src/routes/rh.routes.ts:541-553 | a day with all four punches counts exit minus entry minus the lunch break |
| Rh.SemSaidaNadaConta | src/api/src/routes/rh.routes.ts:541 | records without an exit contribute no minutes |
| Rh.TotalMinutosConcat | src/api/src/routes/rh.routes.ts:539-555 | the total over two lists of records is the sum of the totals |
| Rh.RestoJs | src/api/src/routes/rh.routes.ts:564 | JavaScript's `%` agrees with the Euclidean remainder on non-negative operands |
| Rh.PartesEscritas | src/api/src/routes/rh.routes.ts:563-564 | for a non-negative total the hours and minutes recombine to the total, with minutes in 0..59 |
| Rh.PartesEscritasNegativas | src/api/src/routes/rh.routes.ts:563-564 | a total of -90 minutes is reported as -2 hours and -30 minutes, which recombine to -150 |
| Rh.PartesDe | src/api/src/routes/rh.routes.ts:563-564 | hours and minutes always recombine to the total with minutes in 0..59, and agree with the source for non-negative totals |
| Rh.ResumoMensal | src/api/src/routes/rh.routes.ts:539-566 | the summary loop counts the days and totals the minutes of `TotalMinutos`, split by `PartesDe` |
| Rh.RecursosHumanos.constructor | src/api/src/routes/rh.routes.ts:10 | empty tables |
| Rh.RecursosHumanos.Admitir | src/api/src/routes/rh.routes.ts:113-155 | 400 for invalid data, 409 for a CPF used in the company; otherwise the employee is appended and its number returned |
| Rh.RecursosHumanos.Atualizar | src/api/src/routes/rh.routes.ts:158-181 | 400 for invalid data; otherwise `Alterados` (an unknown id changes nothing) |
| Rh.RecursosHumanos.Demitir | src/api/src/routes/rh.routes.ts:184-208 | 400 without a reason; otherwise `Demitidos` |
| Rh.RecursosHumanos.CriarCargo | src/api/src/routes/rh.routes.ts:227-253 | 400 for invalid data; otherwise the position is appended |
| Rh.RecursosHumanos.ExcluirCargo | src/api/src/routes/rh.routes.ts:276-291 | 400 while an active employee holds the position; otherwise `SemCargo` |
| Rh.RecursosHumanos.CriarDepartamento | src/api/src/routes/rh.routes.ts:313-339 | 400 for a name outside 1..100 characters; otherwise the department is appended |
| Rh.RecursosHumanos.SolicitarFerias | src/api/src/routes/rh.routes.ts:379-410 | 400 for invalid data; otherwise the request is appended |
| Rh.RecursosHumanos.AprovarFerias | src/api/src/routes/rh.routes.ts:413-424 | `Aprovadas`, whatever the request's status |
| Rh.RecursosHumanos.Registrar | src/api/src/routes/rh.routes.ts:464-521 | ENTRADA with no record opens the day; another punch with no record is 400; otherwise `Batido` on the day's record |
| Veiculos.NumeroOuNulo | src/api/src/routes/veiculos.routes.ts:337-343 | `n || null` on a number: present exactly when given and non-zero, and then unchanged |
| Veiculos.RealOuNulo | src/api/src/routes/veiculos.routes.ts:340-341 | the same for the real-valued capacities and price |
| Veiculos.VeiculoDe | src/api/src/routes/veiculos.routes.ts:328-344 | the stored vehicle: upper-cased plate, PROPRIO and CAMINHAO by default, km 0 by default, active unless `ativo` is false, optional texts present only when truthy |
| Veiculos.PlacaEmUsoSemCaixa | src/api/src/routes/veiculos.routes.ts:319-323 | a vehicle of the company whose plate upper-cases to the same text makes the plate count as in use |
| Veiculos.PlacasUnicasSemCaixa | src/api/src/routes/veiculos.routes.ts:319-323 | in a fleet that keeps the invariant, two vehicles of one company with the same plate up to case are the same vehicle |
| Veiculos.FrotaAcrescentar | src/api/src/routes/veiculos.routes.ts:319-343 | appending a fresh vehicle whose plate is not in use keeps plates unique per company |
| Veiculos.Coalesce | src/api/src/routes/veiculos.routes.ts:391-418 | SQL `COALESCE(?, col)`: the new value when given, the stored one otherwise |
| Veiculos.Alterado | src/api/src/routes/veiculos.routes.ts:391-418 | the updated vehicle keeps id and company, upper-cases a new plate, takes every given field and keeps the rest; an empty change is the identity |
| Veiculos.AlteradoIdempotente | src/api/src/routes/veiculos.routes.ts:391-418 | applying the same change twice is applying it once |
| Veiculos.Localizar | src/api/src/routes/veiculos.routes.ts:365-369 | finds the vehicle with that id in that company, and finds none exactly when there is none |
| Veiculos.FrotaSubstituir | src/api/src/routes/veiculos.routes.ts:380-418 | replacing a vehicle by one whose plate no other vehicle of the company uses keeps plates unique |
| Veiculos.AlteracaoSemPlaca | src/api/src/routes/veiculos.routes.ts:380-386 | a change without a plate never collides with another vehicle's plate |
| Veiculos.Subido | src/api/src/routes/veiculos.routes.ts:471-474 | `SET km_atual = ? WHERE km_atual < ?`: the odometer becomes the larger of the two readings and nothing else changes |
| Veiculos.SubidoComuta | src/api/src/routes/veiculos.routes.ts:471-474 | two readings in either order leave the same vehicle, with the largest of the three readings |
| Veiculos.SubidoAbaixo | src/api/src/routes/veiculos.routes.ts:471-474 | a reading not above the current one leaves the vehicle unchanged, and only such a reading does |
| Veiculos.KmSubido | src/api/src/routes/veiculos.routes.ts:513 | the odometer update touches only the vehicle with that id |
| Veiculos.KmSubidoMonotono | src/api/src/routes/veiculos.routes.ts:471-474 | the odometer of no vehicle ever goes down |
| Veiculos.FrotaKmSubido | src/api/src/routes/veiculos.routes.ts:471-474 | the odometer update keeps plates unique |
| Veiculos.ManutencaoDe | src/api/src/routes/veiculos.routes.ts:460-467 | the maintenance row carries the vehicle, type and description, and a km only when given and non-zero |
| Veiculos.KmAposManutencao | src/api/src/routes/veiculos.routes.ts:471-474 | `if (data.km)`: a missing or zero km leaves the fleet as it was, any other raises the odometer |
| Veiculos.AbastecimentoDe | src/api/src/routes/veiculos.routes.ts:503-508 | the fuel row carries the vehicle and km, with positive litres and total, and a station only when truthy |
| Veiculos.Inativados | src/api/src/routes/veiculos.routes.ts:544 | only the vehicle with that id becomes inactive |
| Veiculos.Desvinculados | src/api/src/routes/veiculos.routes.ts:549 | only the active driver links of that vehicle are closed, with today's date as their end |
| Veiculos.DesvinculadosSemMotorista | src/api/src/routes/veiculos.routes.ts:549 | afterwards the vehicle has no active driver; links already closed keep their end date |
| Veiculos.DesvinculadosIdempotente | src/api/src/routes/veiculos.routes.ts:549 | unlinking again, on any later day, changes nothing |
| Veiculos.FrotaInativados | src/api/src/routes/veiculos.routes.ts:544 | inactivating keeps plates unique |
| Veiculos.VereditoInativar | src/api/src/routes/veiculos.routes.ts:526-539 | 200 exactly when the vehicle exists in the company and has no pending delivery; otherwise 404 or 400 |
| Veiculos.Cadastro.constructor | src/api/src/routes/veiculos.routes.ts:11 | an empty fleet over the given driver links and deliveries |
| Veiculos.Cadastro.Criar | src/api/src/routes/veiculos.routes.ts:306-356 | 400 for a plate outside 7..8 characters or already in use in the company up to case; otherwise `VeiculoDe` is appended, keeping plates unique |
| Veiculos.Cadastro.Atualizar | src/api/src/routes/veiculos.routes.ts:359-435 | 404 when absent, 400 for invalid data or a plate used by another vehicle; otherwise the vehicle becomes `Alterado` |
| Veiculos.Cadastro.RegistrarManutencao | src/api/src/routes/veiculos.routes.ts:438-478 | 404 when absent; otherwise the maintenance is appended and the odometer follows `KmAposManutencao` |
| Veiculos.Cadastro.RegistrarAbastecimento | src/api/src/routes/veiculos.routes.ts:481-517 | 404 when absent, 400 for non-positive quantities; otherwise the fill-up is appended and the odometer raised |
| Veiculos.Cadastro.Inativar | src/api/src/routes/veiculos.routes.ts:520-562 | the verdict of `VereditoInativar`; on success the vehicle is inactive and its driver links closed |
| Tickets.StatusDe | src/api/src/routes/tickets.routes.ts:381 | a name the status schema accepts is read as the status bearing that name |
| Tickets.StatusDeNome | src/api/src/routes/tickets.routes.ts:381 | every one of the six statuses is accepted under its own name |
| Tickets.TipoDistingue | src/api/src/routes/tickets.routes.ts:470-476 | the `tipo` column CRIACAO, ATRIBUICAO, STATUS or PRIORIDADE tells the four kinds of history row apart |
| Tickets.HistoricoDe | src/api/src/routes/tickets.routes.ts:258-262 | a ticket's history holds exactly the history rows of that ticket |
| Tickets.HistoricoAcrescentar | src/api/src/routes/tickets.routes.ts:470-476 | writing a history row extends only its own ticket's history, by that row |
| Tickets.HistoricoVazio | src/api/src/routes/tickets.routes.ts:258-262 | a ticket no row mentions has an empty history |
| Tickets.NumerosDa | src/api/src/routes/tickets.routes.ts:297-300 | every number a ticket of the company has is among the numbers the allocation reads |
| Tickets.TicketDe | src/api/src/routes/tickets.routes.ts:306-311 | the new ticket is ABERTO, unassigned and unanswered, with the allocated number, MEDIA and PORTAL as defaults |
| Tickets.Atribuidos | src/api/src/routes/tickets.routes.ts:363-366 | only the ticket with that id in that company gets the assignee (none for a `null` one) and EM_ATENDIMENTO |
| Tickets.ComStatus | src/api/src/routes/tickets.routes.ts:394-397 | only that ticket's status changes |
| Tickets.ComPrioridade | src/api/src/routes/tickets.routes.ts:414-417 | only that ticket's priority changes |
| Tickets.Respondidos | src/api/src/routes/tickets.routes.ts:346-349 | every ticket with that id, whatever its company, gets the time of the last reply |
| Tickets.StatusAtual | src/api/src/routes/tickets.routes.ts:390-392 | the status read before the change: the ticket's status when it exists in the company, none otherwise |
| Tickets.ComStatusEfeito | src/api/src/routes/tickets.routes.ts:390-397 | the change leaves the ticket present exactly when it was, now with the new status |
| Tickets.NumeradosMesmasChaves | src/api/src/routes/tickets.routes.ts:355-422 | updates that keep ids, companies and numbers keep numbers unique per company |
| Tickets.NumeroLivre | src/api/src/routes/tickets.routes.ts:297-302 | the allocated number is the number of no ticket of the company |
| Tickets.NumeradosAcrescentar | src/api/src/routes/tickets.routes.ts:297-311 | a fresh ticket under a free number keeps numbers unique per company |
| Tickets.Localizar | src/api/src/routes/tickets.routes.ts:102-111 | finds the article with that id in that company, and finds none exactly when there is none |
| Tickets.Visualizados | src/api/src/routes/tickets.routes.ts:114-116 | only the article with that id gains one view |
| Tickets.ComFeedback | src/api/src/routes/tickets.routes.ts:162-170 | only the article with that id gains one positive vote when `util` is truthy, one negative vote otherwise |
| Tickets.FeedbackExatamenteUm | src/api/src/routes/tickets.routes.ts:156-173 | each feedback adds exactly one vote, on the side `util` says, and leaves the views alone |
| Tickets.Suporte.constructor | src/api/src/routes/tickets.routes.ts:10 | no tickets, history or messages, over the given articles |
| Tickets.Suporte.Criar | src/api/src/routes/tickets.routes.ts:277-317 | 400 for invalid data; otherwise the ticket gets the next free number of its company and a CRIACAO history row, keeping numbers unique |
| Tickets.Suporte.Responder | src/api/src/routes/tickets.routes.ts:320-352 | 400 for an empty message; otherwise the message is stored, internal only when asked, and the ticket marked as answered |
| Tickets.Suporte.Atribuir | src/api/src/routes/tickets.routes.ts:355-371 | assigns without an existence check and always writes an ATRIBUICAO row to that ticket's history |
| Tickets.Suporte.MudarStatus | src/api/src/routes/tickets.routes.ts:374-403 | 400 for an unknown status; otherwise the status changes and the history records the previous and the new one |
| Tickets.Suporte.MudarPrioridade | src/api/src/routes/tickets.routes.ts:406-422 | the priority changes, unvalidated, and the history records it |
| Tickets.Suporte.Ver | src/api/src/routes/tickets.routes.ts:98-119 | 404 when absent; otherwise the article as read before the view count went up, and the count goes up |
| Tickets.Suporte.Feedback | src/api/src/routes/tickets.routes.ts:156-173 | the vote as `ComFeedback` states, with no existence check |
| Workflows.VerificarCondicao | src/api/src/routes/workflows.routes.ts:477-484 | true exactly when every expected field of the condition is strictly equal to the record's; an empty condition always holds, one expecting an object or array never does |
| Workflows.WorkflowDe | src/api/src/routes/workflows.routes.ts:104-111 | the new workflow is active and keeps the body's entity, trigger and condition |
| Workflows.AcoesNovas | src/api/src/routes/workflows.routes.ts:114-121 | one action row per action of the body, in order, under a fresh id and the workflow's id |
| Workflows.AcoesDe | src/api/src/routes/workflows.routes.ts:65 | a workflow's actions are exactly the action rows bearing its id |
| Workflows.SemAcoesDe | src/api/src/routes/workflows.routes.ts:158 | `DELETE … WHERE workflow_id = ?` keeps exactly the rows of the other workflows |
| Workflows.AcoesDeConcat | src/api/src/routes/workflows.routes.ts:65 | the actions of a workflow over two tables joined are its actions in each, joined |
| Workflows.AcoesDeNenhuma | src/api/src/routes/workflows.routes.ts:65 | a table with no row of the workflow gives it no actions |
| Workflows.AcoesDeTodas | src/api/src/routes/workflows.routes.ts:65 | a table of only the workflow's rows gives all of them |
| Workflows.Substituicao | src/api/src/routes/workflows.routes.ts:152-171 | after the replacement the workflow's actions are exactly the new ones |
| Workflows.SubstituicaoOutros | src/api/src/routes/workflows.routes.ts:152-171 | the replacement leaves every other workflow's actions as they were |
| Workflows.SemAcoesDeOutro | src/api/src/routes/workflows.routes.ts:158 | deleting one workflow's actions leaves every other's |
| Workflows.Inserir | src/api/src/routes/workflows.routes.ts:213 | inserting one action lengthens the list by one |
| Workflows.InserirPermuta | src/api/src/routes/workflows.routes.ts:213 | inserting one action adds exactly that action and loses none |
| Workflows.PorOrdem | src/api/src/routes/workflows.routes.ts:213 | `ORDER BY ordem` returns as many actions as the table holds for the workflow |
| Workflows.InserirOrdenado | src/api/src/routes/workflows.routes.ts:213 | inserting into a list in `ordem` order keeps it in order |
| Workflows.PorOrdemOrdena | src/api/src/routes/workflows.routes.ts:213 | the ordered list is in ascending `ordem` and a permutation of the actions |
| Workflows.Falha | src/api/src/routes/workflows.routes.ts:439-475 | the first action whose type `executarAcao` throws on, every action before it supported; none exactly when all are supported |
| Workflows.RodarFalha | src/api/src/routes/workflows.routes.ts:220-250 | a run errs exactly when some action is unsupported, records every action up to and including the first such one, only that one as ERRO, and carries its message |
| Workflows.CriarTicketFalha | src/api/src/routes/workflows.routes.ts:439-475 | a CRIAR_TICKET action, accepted by the creation schema, always makes the run fail at it or earlier |
| Workflows.RodarParado | src/api/src/routes/workflows.routes.ts:248 | once a prefix of the actions has failed, the rest adds nothing |
| Workflows.ExecutarAcoes | src/api/src/routes/workflows.routes.ts:216-250 | the loop with its `break` writes what `Rodar` states, and succeeds exactly when every action is supported |
| Workflows.Disparos | src/api/src/routes/workflows.routes.ts:336-361 | one PENDENTE execution, with the event and the record, for each active workflow of the company, entity and event whose condition holds, and for no other |
| Workflows.Selecionar | src/api/src/routes/workflows.routes.ts:343-361 | the trigger loop with its `continue` produces exactly `Disparos` |
| Workflows.Alterado | src/api/src/routes/workflows.routes.ts:135-145 | keeps id, company, entity and trigger; a truthy name or condition replaces the stored one; a description or schedule the body has is written, `null` clearing it; a `null` `ativo` deactivates; an empty change is the identity |
| Workflows.AlteradosW | src/api/src/routes/workflows.routes.ts:141-146 | only the workflow with that id in that company changes |
| Workflows.SemWorkflow | src/api/src/routes/workflows.routes.ts:179 | the workflow with that id in that company is deleted and all others kept |
| Workflows.Ativo | src/api/src/routes/workflows.routes.ts:195-197 | finds the active workflow with that id in that company, and finds none exactly when there is none |
| Workflows.EncerradasDisparos | src/api/src/routes/workflows.routes.ts:355-358 | adding PENDENTE executions keeps every execution finished or waiting, with an error exactly when ERRO |
| Workflows.SuportadasPorOrdem | src/api/src/routes/workflows.routes.ts:213 | sorting changes nothing about whether every action is supported |
| Workflows.Automacao.constructor | src/api/src/routes/workflows.routes.ts:10 | empty tables |
| Workflows.Automacao.Criar | src/api/src/routes/workflows.routes.ts:75-124 | 400 for invalid data; otherwise the active workflow and its actions are stored |
| Workflows.Automacao.Atualizar | src/api/src/routes/workflows.routes.ts:127-149 | the workflow becomes `Alterado`, `null` fields included, without an existence check |
| Workflows.Automacao.SubstituirAcoes | src/api/src/routes/workflows.routes.ts:152-171 | the workflow's actions become exactly the new ones, whatever company it belongs to; a body without `acoes` deletes them all and answers 500 |
| Workflows.Automacao.Excluir | src/api/src/routes/workflows.routes.ts:174-182 | the workflow and every action row bearing its id are deleted |
| Workflows.Automacao.Disparar | src/api/src/routes/workflows.routes.ts:320-367 | the executions of `Disparos` are appended and their number returned |
| Workflows.ExecutarWorkflow | src/api/src/routes/workflows.routes.ts:211-251 | the workflow's actions, read in `ordem` order, are run as `Rodar` states; the status is SUCESSO exactly when no error was recorded, and exactly when every action of the workflow is supported |
| Workflows.Registrado | src/api/src/routes/workflows.routes.ts:203-257 | one MANUAL execution with the status and error of the run is appended, the run's action rows, notifications and tasks are appended, and every execution stays finished |
| Workflows.Automacao.Executar | src/api/src/routes/workflows.routes.ts:189-263 | 404 unless the workflow is active in the company; otherwise the actions in `ordem` order are run as `Rodar` states, and the MANUAL execution ends SUCESSO exactly when every action is supported |
| Workflows.Automacao.UsarTemplate | src/api/src/routes/workflows.routes.ts:415-433 | an active workflow with the body's fields, or `Workflow <id>`, PEDIDO and CRIAR when they are falsy |

## Left out

Out of scope by design:

- App wiring, middleware and the dashboard and calendar route files: `src/api/src/index.ts`, `src/api/src/routes/index.ts`, `bi.routes.ts` and `agenda.routes.ts` are not part of this model.
- Listings, detail reads and summaries that are SQL aggregates: every `GET /`, `GET /resumo`, `GET /fluxo-caixa`, `GET /estatisticas`, the session listings of the tills, the depreciation listing, the pending-maintenance and inventory reports of fixed assets. Search filters (`LIKE`, `GROUP_CONCAT`) go with them.
- The HTTP response shapes, and the regex that rewrites a `SELECT … FROM` into a `COUNT(*)`.
- Formats that zod checks but the model does not: e-mail addresses and `HH:MM` times, and UUIDs everywhere except the profile payloads (`Perfis.ValidUuid`). Such fields are plain values.
- Bodies that a zod schema parses are records of the schema's types. Bodies read with a bare `await c.req.json()` are not checked; where such a handler writes a field only when it is not `undefined`, the model gives the field three states, absent, `null` or a value (`Outcome.Campo`): `Patrimonio.Alterado`, `Workflows.Alterado`, `Orcamentos.ComEdicao`, `Tickets.Atribuidos`. A value of another JSON type than the column's is not modelled.
- D1 refuses to bind `undefined`; a handler that binds a body field the request left out throws (500) at that statement. The model does not capture this: such a field binds as whatever its type says, as listed per member below.
- Time and randomness: `CURRENT_TIMESTAMP`, `date('now')`, `crypto.randomUUID()` and the expiry of a quote are parameters. Tokens, SHA-256 and password hashing are parameters too, and so is the result of a password check.
- Floating point and locale: `arredondar`, `calcularPercentual`, `aplicarDesconto`, `aplicarAcrescimo`, the `Intl` formatters, `removerAcentos`, `gerarSlug`, `capitalizar`, `validarEmail`, `hashSenha`, the token and date helpers, `gerarUUID`, `objetoVazio`, `delay` and `hashDados`. Amounts are exact reals, so no property depends on IEEE rounding.
- Compras.ReceberItens: the weighted-average cost written on receipt (`compras.routes.ts:758`) is not modelled; stock quantities are.
- Unidades.InversoInvolutivo: the reverse factor `1 / f` is an exact real, not a float, so the round trip holds exactly here and only approximately in the source.
- Invoice transmission to the tax authority, `gerarChaveAcesso` (constant stub), the intermediate PENDENTE status, and the DANFE and XML endpoints.
- The simulated EMAIL, WEBHOOK and ATUALIZAR_CAMPO workflow actions: they succeed and write nothing. NOTIFICACAO and CRIAR_TAREFA are modelled as appended rows.
- Concurrency: each handler is one sequential step. The source runs separate statements with no transaction, so two requests can interleave and `MAX + 1` numbering can hand out one number twice. The uniqueness invariants hold for requests one at a time only.

JavaScript and routing semantics:

- Hono registers `GET /estatisticas` (exchanges), `GET /tickets/estatisticas`, `GET /otimizar` (routes), `GET /fiscal` and `GET /sequencias` (settings) after a `/:id` or `/:chave` route that shadows them. The model treats each handler as reachable.
- `localeCompare`, `toUpperCase` and `toLowerCase`: upper- and lower-casing are ASCII only (`Users.Minusculas` folds only `A`–`Z`, so two e-mails differing in a non-ASCII letter's case are distinct here), and strings compare by code point, not by UTF-16 unit or locale.
- String lengths are counted in code points, where JavaScript counts UTF-16 units: `Helpers.Truncar`, the NF-e `justificativa` (at least 15) and `correcao` lengths, the settings' sequence `prefixo` width and every zod `min`/`max` differ for text outside the Basic Multilingual Plane.
- `Object.keys` puts integer-like keys first; an object here keeps its entries in insertion order.
- `parseInt` of a non-numeric text (`NaN`) is not modelled: page and limit are integers.
- `JSON.stringify(a) === JSON.stringify(b)` is value equality on `Js.Valor`.

Modelling assumptions:

- `profiles.ts` and `perfis.routes.ts` write the same tables. Each is modelled with its own invariant, and neither invariant is maintained against the other file's writes.
- Permission ids are not assumed distinct in the matrix: a duplicate id takes the last row (`Profiles.MatrizUltima`).
- A profile created by `profiles.ts` is active; the column default is not visible in the source.
- Users.Contas.Atualizar: profiles supplied on update are not checked against the company, as in the source.
- `nivel` and the other numeric columns of profiles are reals.

Omitted effects:

- The audit rows that handlers write through `registrarAuditoria` are not repeated in each handler's model; the audit trail is its own module.
- Auditoria.Trilha.Buscar: returns the count, the conditions and the page window, not the page of rows itself; the `ORDER BY created_at DESC` and the row selection by `LIMIT`/`OFFSET` are not modelled.
- Profiles.Cadastro.ListarPermissoes, Perfis.ListarPermissoes: the `ORDER BY modulo, acao` of the query is not modelled; the permissions are taken in table order, so the order of the groups and of the items inside a group follows the table.

Bounded contracts:

- Helpers.PesoCnpj: stated for 9 to 16 summed digits only; CNPJ validation sums 12 and 13.

Per file:

- `caixas.routes.ts`: creating and editing a till (`POST /`, `PUT /:id`) are plain inserts and updates and are not modelled.
- `rh.routes.ts`: `PUT /cargos/:id` writes arbitrary columns and is not modelled; the summary takes the month's records as a parameter instead of the `strftime` filter; latitude and longitude of a punch are not stored.
- `configuracoes-sistema.routes.ts`: e-mail templates, integrations, backup and restore are not modelled. Settings are unique only per company, key, branch and group, because the fiscal save can add a key that another group already holds.
- `patrimonio.routes.ts`: the category update (arbitrary columns) and maintenance records are not modelled.
- Rotas.Otimizar: the CEP order is proved only when every delivery has a CEP, since the comparator with missing CEPs is not a total order. The sort is a stable insertion sort with the same comparator.
- Veiculos.Cadastro.Atualizar: `COALESCE` may lower `km_atual`; the odometer is monotone only under maintenance and fuelling.
- Tickets.Suporte.MudarPrioridade: a missing `prioridade` in the body (an `undefined` bind) is not modelled.
- ConfiguracoesSistema.Salvar: the unchecked `valor` of `PUT /configuracoes/:chave` and of `POST /configuracoes/lote` is taken to be a string; a `null` would store NULL, a missing one makes D1 refuse the bind (500), and another JSON type is stored as is.
- Veiculos.Cadastro.Atualizar: the handler binds `marca`, `modelo` and the other body fields directly; a field the body leaves out is an `undefined` bind that D1 refuses (500). The model takes a left-out field as `null` inside `COALESCE`, which keeps the stored value.
- Patrimonio.Alterado: `descricao` is a plain field of the untyped body, so a `null` there would be bound as NULL; whether the table accepts it is not visible in the source, and the model keeps the stored description for an absent or `null` value alike.
- Tickets.Atribuidos: an `atribuido_a` left out of the body is an `undefined` bind that D1 refuses; the model reads it as `null`, which unassigns the ticket.
- NotasFiscais.ValidDados: checks the fields the model carries. The schema's rules on the rest (`natureza_operacao` at most 60 characters, `cfop` exactly 4, `ncm` at most 8, `cest` at most 7, the CST codes, the enum defaults of `finalidade`, `tipo_operacao`, `presenca_comprador` and `modalidade_frete`) are not modelled.
- Rotas.RotaDe: `data_rota` and `observacoes` are stored by the source but not carried by the model.
- Orcamentos.PedidoDe: the sales order's lines are the quote's lines, ids included; the source gives each copied line a fresh `crypto.randomUUID()`.
- Orcamentos.ComEdicao: `data_validade`, which the source recomputes from a truthy new `validade_dias`, is not carried, since the expiry is a parameter of approval.
- Workflows.PorOrdem: `ORDER BY ordem` leaves the order of equal `ordem`s to SQLite; the model fixes it to table order.
- Workflows.Automacao.Executar: database errors that `executarAcao` can raise for a missing configuration field are not modelled. An action's own `condicao` is stored but never evaluated, as in the source.

## Findings

| source | as written | input that shows it | evidently intended | confidence | as-written member | corrected member |
|---|---|---|---|---|---|---|
| src/api/src/routes/rh.routes.ts:563-564 | `horas = Math.floor(totalMinutos / 60)` with `minutos = totalMinutos % 60`; JavaScript's `%` truncates toward zero | a month with one record whose saída was punched before the lunch return, which registration allows: entrada 08:00, saída almoço 08:10, saída 09:00, retorno almoço 10:40 gives 60 − 150 = −90 minutes, reported as −2 h and −30 min, which recombine to −150 | hours × 60 + minutes equals the total, with minutes in 0..59 | not executed | Rh.PartesEscritas, Rh.PartesEscritasNegativas | Rh.PartesDe |
