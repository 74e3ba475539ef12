# MonitorOP in Dafny

MonitorOP is an administrative web application for tracking production-order activities. Projects and
teams ("squads") own activities, and administrators manage user accounts. It has a React client and a
Flask REST server. This project models the parts of both that hold rules, and proves what those rules
promise:

- **Pagination widget** (`pagination.dfy`). `getPageNumbers` is a method that pushes page numbers and
  ellipses. It is proved equal to a reference definition of the strip, and the strip's structural
  facts are proved for every `(page, pages)`: at most seven entries, from 1 to `pages`, increasing, the
  current page shown, and ellipses only where pages are hidden. Also covered: the "showing a to b of n"
  range, the null-render guard and the arguments each control passes to `onPageChange`.
- **Dashboard** (`dashboard.dfy`). The filter pipeline narrows a working copy of the activity list one
  filter at a time. The option lists for the dropdowns are deduplicated and sorted, and production
  order and project narrow each other. The dashboard also builds the two named squad sections and the
  per-title status indicators. A class holds the component state.
- **Request paths** (`api.dfy`). The activity list query is built one truthy filter at a time. Item
  paths are `/<resource>/<id>`.
- **List pages** (`atividades_page.dfy`, `projetos_page.dfy`, `squads_page.dfy`, `usuarios_page.dfy`).
  Each page is a class over its form, its edit target, the form's visibility, its filters and a log of
  the backend calls it has issued.
  - Backend replies and confirmation dialogs are inputs.
  - Messages shown to the user are a `Notice`.
- **Client session** (`auth_client.dfy`, `auth_context.dfy`, `login_page.dfy`):
  - browser storage;
  - the request and the response interceptor, which sit on the default axios instance and so see only the session service's own requests;
  - the `AuthProvider` state;
  - the login page's `loading` guard.
- **Server handlers** (`backend*.dfy`). The squad, activity, user and login handlers are methods over
  tables of type `map<int, Row>`. Each returns either the new table or an `HttpError` holding a status
  and a message. JSON request bodies follow Python's truthiness.

`wrappers.dfy`, `text.dfy`, `seqs.dfy`, `records.dfy` and `calls.dfy` hold what these share:
- `Option` and `Result`;
- trimming, digit rendering and parsing, string order;
- `filter`, `filter(...).length`, `[...new Set(...)]` and sorting by a key;
- the client-side records;
- the backend call log.

Notes on the code:
- The session context's `isAuthenticated` tests the in-memory user. The storage service's
  `isAuthenticated` tests the stored token. Both are modelled.
- The activities page has no paging. It reloads on every filter change.
- An activity has one deadline (`prazo`), not four dates.
- Update and delete of a missing row answer 500, not 404: `get_or_404` raises inside the handler's own
  `try`/`except Exception`.

## Model

| member | source | states |
|---|---|---|
| Pagination.GetPageNumbers | frontend/src/components/Pagination.js:20-58 | the array the loops push is exactly the reference strip `PageNumbers(page, pages)` |
| Pagination.PageNumbersFacts | frontend/src/components/Pagination.js:20-58 | every strip has at most 7 entries, page numbers strictly increasing within [1, pages], first 1 and last `pages` when `pages >= 1`, the current page when it exists, ellipses iff `pages > 5`, each between two shown pages and hiding at least one |
| Pagination.ShortStrip | frontend/src/components/Pagination.js:24-28 | with at most five pages the strip is all of them, no ellipsis, and has those facts |
| Pagination.LeadingStrip | frontend/src/components/Pagination.js:31-37 | near the first page the strip `[1,2,3,4,'...',pages]` has those facts |
| Pagination.TrailingStrip | frontend/src/components/Pagination.js:38-44 | near the last page the strip `[1,'...',pages-3..pages]` has those facts |
| Pagination.TrailingShape | frontend/src/components/Pagination.js:38-44 | the trailing strip written out has six entries with the last four pages consecutive |
| Pagination.MiddleStrip | frontend/src/components/Pagination.js:45-54 | the middle strip `[1,'...',page-1,page,page+1,'...',pages]` has those facts |
| Pagination.RunWellSpaced | frontend/src/components/Pagination.js:26-28 | a loop-built run of consecutive pages is a well-spaced strip |
| Pagination.JoinWellSpaced | frontend/src/components/Pagination.js:36-53 | an ellipsis between two well-spaced parts with a gap keeps the strip well spaced |
| Pagination.WellSpacedIncreasing | frontend/src/components/Pagination.js:20-58 | in a well-spaced strip every later page number is larger than the first and at most the last |
| Pagination.WellSpacedNeighbours | frontend/src/components/Pagination.js:20-58 | adjacent page numbers of a well-spaced strip are consecutive |
| Pagination.WellSpacedEllipses | frontend/src/components/Pagination.js:36-52 | every ellipsis stands between two page numbers and hides at least one page |
| Pagination.EndItem | frontend/src/components/Pagination.js:17 | `min(page * per_page, total)`: never above either bound, and equal to one of them |
| Pagination.ItemRangeWithinTotal | frontend/src/components/Pagination.js:16-17 | with server-computed metadata and an existing page, `1 <= startItem <= endItem <= total` and the range spans at most `per_page` items |
| Pagination.Render | frontend/src/components/Pagination.js:9-17 | nothing is rendered iff the metadata is absent or `total == 0`; otherwise the range `StartItem`..`EndItem` of `total`, the page size shown, the strip, first/previous disabled iff `!has_prev`, next/last disabled iff `!has_next` |
| Pagination.Activate | frontend/src/components/Pagination.js:68-139 | a control asks for nothing iff it is disabled; only the size selector passes a size, and it always asks for page 1 |
| Pagination.NavigationStaysInRange | frontend/src/components/Pagination.js:68-122 | with consistent metadata no enabled control asks for a page outside [1, pages] |
| Dashboard.FiltrarAtividades | frontend/src/pages/Dashboard.js:142-175 | the step-by-step narrowing of the working copy equals the one-step filter by every set condition |
| Dashboard.FiltradasSpec | frontend/src/pages/Dashboard.js:142-175 | the filtered list is an order-preserving subsequence, holds exactly the activities passing every set filter, and is the whole list when no filter is set |
| Dashboard.FiltradasNarrow | frontend/src/pages/Dashboard.js:146-175 | setting a further filter only removes activities |
| Dashboard.SquadNomeada | frontend/src/pages/Dashboard.js:178-179 | `find` by exact name: the first squad with that name, none iff no squad has it |
| Dashboard.GrupoSpec | frontend/src/pages/Dashboard.js:177-188 | a squad section is empty when its squad does not exist, keeps the filtered order, and holds exactly the filtered activities of that squad's id |
| Dashboard.DoTipoSeq | frontend/src/pages/Dashboard.js:217-219 | the activities of the title, all of them for `""` |
| Dashboard.Percentual | frontend/src/pages/Dashboard.js:225 | 0 when `total == 0`; otherwise `p * total == 100 * concluidas`, within [0, 100] |
| Dashboard.CalcularIndicadoresSpec | frontend/src/pages/Dashboard.js:216-234 | `total` counts the activities of the title; `concluidas + emAndamento + pendentes <= total`, with equality iff every status is one of the three |
| Dashboard.StatusConhecido | frontend/src/pages/Dashboard.js:221-224 | the three counts cover every activity exactly when every status is one the server accepts |
| Dashboard.ExibidoSpec | frontend/src/pages/Dashboard.js:238 | an indicator is drawn iff some activity has its title |
| Dashboard.OrdensNaoVaziasSpec | frontend/src/pages/Dashboard.js:122-125 | the collected orders are exactly the non-blank orders some project has |
| Dashboard.ProjetoPorId | frontend/src/pages/Dashboard.js:114 | `find` by id: a project with that id, none iff no project has it |
| Dashboard.OpcoesOrdemProducaoSpec | frontend/src/pages/Dashboard.js:113-128 | with a project selected: at most one option, the selected project's non-empty order, none when it has none; without one: strictly increasing and exactly the non-blank orders |
| Dashboard.OpcoesSquadsSpec | frontend/src/pages/Dashboard.js:131-133 | squad options keep squad order and are exactly the squads some remaining activity belongs to |
| Dashboard.Titulos | frontend/src/pages/Dashboard.js:137 | the titles are exactly those of the activities |
| Dashboard.OpcoesTiposSpec | frontend/src/pages/Dashboard.js:136-139 | type options are strictly increasing (so each title once) and exactly the remaining titles |
| Dashboard.ComoOpcoes | frontend/src/pages/Dashboard.js:209-212 | one option per project, in order, labelled `subprograma - nome` |
| Dashboard.ListaveisEmOrdem | frontend/src/pages/Dashboard.js:201-206 | the two filters of the project dropdown select exactly the listable projects |
| Dashboard.ComoOpcoesMembers | frontend/src/pages/Dashboard.js:209-212 | an option is present iff some project has that id and label |
| Dashboard.ProjetosFormatadosSpec | frontend/src/pages/Dashboard.js:200-213 | the project dropdown is sorted by label, lists exactly the projects with a non-blank sub-programme (and the selected order, if any), once each |
| Dashboard.DeveExibirSpec | frontend/src/pages/Dashboard.js:282-294 | without a squad filter both sections are shown; a section whose squad does not exist is hidden under a squad filter |
| Dashboard.ComOrdem | frontend/src/pages/Dashboard.js:317 | choosing a production order clears the project filter and keeps the others |
| Dashboard.CalcularOpcoes | frontend/src/pages/Dashboard.js:78-139 | the three option lists computed from the activities narrowed by all filters but the title |
| Dashboard.DashboardPage.constructor | frontend/src/pages/Dashboard.js:20-44 | empty data, empty filters, empty derived lists |
| Dashboard.DashboardPage.AtualizarOpcoesFiltros | frontend/src/pages/Dashboard.js:78-139 | sets the three option lists to their specifications, nothing else changes |
| Dashboard.DashboardPage.AplicarFiltros | frontend/src/pages/Dashboard.js:142-189 | sets the two sections to the squad groups of the fully filtered list, nothing else changes |
| Dashboard.DashboardPage.Recalcular | frontend/src/pages/Dashboard.js:50-55 | recomputes every derived list only when all three collections are non-empty, else changes nothing |
| Dashboard.DashboardPage.Carregar | frontend/src/pages/Dashboard.js:57-76 | new data, filters kept; the derived lists are up to date when all three collections are non-empty and keep their old values otherwise |
| Dashboard.DashboardPage.SetFiltros | frontend/src/pages/Dashboard.js:50-55 | the new filters; the derived lists are recomputed when all three collections are non-empty and keep their old values otherwise |
| Dashboard.DashboardPage.LimparFiltros | frontend/src/pages/Dashboard.js:191-198 | all four filters become `""`; the derived lists follow when all three collections are non-empty and keep their old values otherwise |
| Dashboard.DashboardPage.OnOrdemProducaoChange | frontend/src/pages/Dashboard.js:317 | the order is set and the project filter cleared; the derived lists follow when all three collections are non-empty and keep their old values otherwise |
| Seqs.Dedup | frontend/src/pages/Dashboard.js:122-126 | `[...new Set(s)]` keeps exactly the elements of `s`, each once, in the order of `s` |
| Seqs.SortBy | frontend/src/pages/Dashboard.js:126 | the sorted sequence is ordered and a permutation of its input |
| Seqs.SortedDistinctSpec | frontend/src/pages/Dashboard.js:136-138 | deduplicated and sorted values are strictly increasing and exactly the input's values |
| Seqs.CountThree | frontend/src/pages/Dashboard.js:221-224 | three exclusive conditions count at most every element once, exactly once iff each element meets one |
| Api.Listar | frontend/src/services/api.js:35-43 | the path the four conditional appends build is the reference `ListPath` |
| Api.ListPath | frontend/src/services/api.js:42 | exactly `/atividades` iff no filter key is truthy, otherwise `/atividades?` and the parameters |
| Api.ParamsForKeys | frontend/src/services/api.js:37-40 | the keys sent are exactly the truthy filter keys, in the fixed key order |
| Api.ParamsForValues | frontend/src/services/api.js:37-40 | each value sent is the filter's own value, never `""` |
| Api.NoParams | frontend/src/services/api.js:37-42 | no parameter is sent iff no filter key is truthy |
| Api.ListarEnviaTruthy | frontend/src/services/api.js:37-40 | each of the four keys is sent iff its value is truthy |
| Api.ListPathAgree | frontend/src/services/api.js:35-43 | filter objects agreeing on the truthy keys and their values give the same path |
| Api.QueryString | frontend/src/services/api.js:42 | the query text is empty iff there are no parameters |
| Api.ParseAs | frontend/src/services/api.js:15-18 | a reader with no counterpart in the client, the inverse of the item paths these lines build: an id is read back iff the path has the item shape of that resource |
| Api.ParseItemPath | frontend/src/services/api.js:15-47 | a reader with no counterpart in the client, used as the reference for the item paths these lines build: a path is read as the resource whose item shape it has, or as nothing when it has none |
| Api.ItemPathRoundTrip | frontend/src/services/api.js:15-47 | every item path `/<resource>/<id>` reads back as its resource and id |
| Api.ItemPathInjective | frontend/src/services/api.js:15-47 | two item paths are equal iff resource and id are |
| Api.StatisticsIsNotAnItem | frontend/src/services/api.js:48 | the statistics route is not an activity item path |
| AtividadesPage.FormDe | frontend/src/pages/Atividades.js:88-100 | the edit form copies title, priority and status; an absent description or deadline becomes `""` |
| AtividadesPage.FormDeIds | frontend/src/pages/Atividades.js:96-97 | the id fields read back as the ids of the nested project and squad |
| AtividadesPage.IdTextoRoundTrip | frontend/src/pages/Atividades.js:96-97 | the text of any id, negative ones included, parses back to that id |
| AtividadesPage.FiltrosLimpos | frontend/src/pages/Atividades.js:57-59 | exactly the entries whose value is not `""`, values unchanged |
| AtividadesPage.FiltrosLimposMesmaConsulta | frontend/src/pages/Atividades.js:57-60 | cleaning does not change the request path |
| AtividadesPage.LimparSpec | frontend/src/pages/Atividades.js:147-154 | after clearing, the clear button is hidden and the request carries no parameter |
| AtividadesPage.Page.constructor | frontend/src/pages/Atividades.js:9-29 | empty list, empty filters, default form, not editing, hidden |
| AtividadesPage.Page.CarregarAtividades | frontend/src/pages/Atividades.js:54-68 | one list request with the cleaned filters; the reply's list, or an error and the old list |
| AtividadesPage.Page.SetFiltro | frontend/src/pages/Atividades.js:35-37 | a filter change reloads with the cleaned new filters: the reply's list, or the load error and the old list; form state untouched |
| AtividadesPage.Page.LimparFiltros | frontend/src/pages/Atividades.js:147-154 | the four filters become `""` and the reload carries no parameter: the reply's list, or the load error and the old list |
| AtividadesPage.Page.ResetForm | frontend/src/pages/Atividades.js:133-145 | default form (`media`, `pendente`, empty texts), not editing, hidden |
| AtividadesPage.Page.HandleEdit | frontend/src/pages/Atividades.js:88-100 | the record's form, edit mode, form shown |
| AtividadesPage.Page.HandleSubmit | frontend/src/pages/Atividades.js:70-86 | update when editing, else create; success shows its message, resets the form and reloads (the reply's list, or the load error and the old list); failure keeps the form, the list, and reports the error |
| AtividadesPage.Page.HandleDelete | frontend/src/pages/Atividades.js:102-131 | the delete call only when confirmed; success shows its message and reloads (the reply's list, or the load error and the old list); failure keeps the list and reports the error; cancel changes nothing |
| ProjetosPage.RefIds | frontend/src/pages/Projetos.js:74 | the ids of the squads, in order |
| ProjetosPage.FormDe | frontend/src/pages/Projetos.js:62-77 | the edit form copies `nome`, maps each absent optional field to `""`, and takes the squads' ids in order |
| ProjetosPage.ToggleSpec | frontend/src/pages/Projetos.js:109-116 | a selected id is removed everywhere and every other id keeps its order and its number of copies; an unselected id is appended |
| ProjetosPage.ToggleTwice | frontend/src/pages/Projetos.js:109-116 | toggling an unselected id twice restores the selection |
| ProjetosPage.Page.constructor | frontend/src/pages/Projetos.js:5-21 | empty lists, empty form, not editing, hidden |
| ProjetosPage.Page.CarregarDados | frontend/src/pages/Projetos.js:27-42 | both lists from the reply, or an error and the old lists |
| ProjetosPage.Page.ResetForm | frontend/src/pages/Projetos.js:92-107 | every field empty, no squad, not editing, hidden |
| ProjetosPage.Page.HandleEdit | frontend/src/pages/Projetos.js:62-77 | the record's form, edit mode, form shown |
| ProjetosPage.Page.HandleSquadToggle | frontend/src/pages/Projetos.js:109-116 | only the squad selection changes, by `Toggle` |
| ProjetosPage.Page.HandleSubmit | frontend/src/pages/Projetos.js:44-60 | update when editing, else create; success shows its message, resets the form and reloads both lists (or shows the load error and keeps them); failure keeps the form and the lists and reports the error |
| ProjetosPage.Page.HandleDelete | frontend/src/pages/Projetos.js:79-90 | the delete call only when confirmed; success shows its message and reloads both lists (or shows the load error and keeps them); failure keeps the lists and reports the error; cancel changes nothing |
| SquadsPage.FormDe | frontend/src/pages/Squads.js:49-56 | the edit form copies `nome` and maps an absent description to `""` |
| SquadsPage.Page.constructor | frontend/src/pages/Squads.js:5-12 | empty list, empty form, not editing, hidden |
| SquadsPage.Page.CarregarSquads | frontend/src/pages/Squads.js:18-29 | the reply's list, or an error and the old list |
| SquadsPage.Page.ResetForm | frontend/src/pages/Squads.js:71-75 | both fields `""`, not editing, hidden |
| SquadsPage.Page.HandleEdit | frontend/src/pages/Squads.js:49-56 | the record's form, edit mode, form shown |
| SquadsPage.Page.HandleSubmit | frontend/src/pages/Squads.js:31-47 | update when editing, else create; success shows its message, resets the form and reloads (or shows the load error and keeps the list); failure keeps the form and the list and reports the error |
| SquadsPage.Page.HandleDelete | frontend/src/pages/Squads.js:58-69 | the delete call only when confirmed; success shows its message and reloads (or shows the load error and keeps the list); failure keeps the list and reports the error; cancel changes nothing |
| UsuariosPage.Corpo | frontend/src/pages/Usuarios.js:55-73 | trimmed name and login, same role and flag; the password always on create, on edit iff it is not blank |
| UsuariosPage.SubmissaoComoEscrita | frontend/src/pages/Usuarios.js:43-51 | as written: rejected iff name or login is empty or a new user has no password, with the matching message |
| UsuariosPage.NomeEmBrancoAceito | frontend/src/pages/Usuarios.js:43-57 | as written, a name of spaces is accepted and sent as `""` |
| UsuariosPage.Submissao | frontend/src/pages/Usuarios.js:43-73 | rejected iff name or login is blank or a new user has no password; otherwise the payload |
| UsuariosPage.SubmissaoNaoVazia | frontend/src/pages/Usuarios.js:43-57 | an accepted submission never sends an empty name or login |
| UsuariosPage.SubmissaoRefinaComoEscrita | frontend/src/pages/Usuarios.js:43-73 | the corrected check accepts a subset, with the same payload, and additionally rejects exactly the blank-but-non-empty names and logins |
| UsuariosPage.FormDe | frontend/src/pages/Usuarios.js:89-99 | the edit form copies the user and has an empty password |
| UsuariosPage.EditarSemSenha | frontend/src/pages/Usuarios.js:62-66 | submitting an unchanged edit form sends no password |
| UsuariosPage.ComDeletarSpec | frontend/src/pages/Usuarios.js:367 | the delete control is on exactly the rows other than the logged-in user's, in order |
| UsuariosPage.Page.constructor | frontend/src/pages/Usuarios.js:11-21 | empty list, default form, not editing, hidden |
| UsuariosPage.Page.CarregarUsuarios | frontend/src/pages/Usuarios.js:27-38 | the reply's list, or an error and the old list |
| UsuariosPage.Page.ResetForm | frontend/src/pages/Usuarios.js:195-205 | empty texts, role `analista`, active, not editing, hidden |
| UsuariosPage.Page.HandleEdit | frontend/src/pages/Usuarios.js:89-99 | the user's form, edit mode, form shown |
| UsuariosPage.Page.HandleSubmit | frontend/src/pages/Usuarios.js:40-87 | validated by the corrected `Submissao` (see Findings): a rejected form issues no call and changes only the message; an accepted one is sent as update or create, then as in `Enviar` |
| UsuariosPage.Page.Rejeitar | frontend/src/pages/Usuarios.js:43-51 | the error message and nothing else changes |
| UsuariosPage.Page.Enviar | frontend/src/pages/Usuarios.js:53-86 | success shows its message, resets the form and reloads (the reply's list, or the load error and the old list); failure keeps the form and the list and shows the server error or the generic one |
| UsuariosPage.Page.HandleDelete | frontend/src/pages/Usuarios.js:101-169 | the delete call only from the dialog's confirm button; success shows its message and reloads (or shows the load error and keeps the list); failure keeps the list and shows the server error or the generic one |
| Calls.ServerErrorOr | frontend/src/pages/Usuarios.js:85 | the text shown is the fallback or the server's own error, the server's whenever it is non-empty, and never empty when the fallback is not |
| Records.OrEmpty | frontend/src/pages/Atividades.js:92-93 | the form text is `""` exactly when the value is null or empty, and is the value whenever there is one |
| Text.ParseIntIdText | frontend/src/pages/Dashboard.js:95 | the decimal text of a number parses back to it |
| Text.ParseIntNegIdText | frontend/src/pages/Dashboard.js:95 | a minus sign before the text of a number parses back to its negation |
| Text.IdTextInjective | frontend/src/services/api.js:15 | distinct ids have distinct texts |
| AuthClient.Token | frontend/src/services/auth.js:8-9 | a token is read iff a non-empty string is stored under `token` |
| AuthClient.BearerToken | frontend/src/services/auth.js:10 | a header read as bearer credentials is `Bearer ` followed by the token (RFC 6750, section 2.1) |
| AuthClient.BearerRoundTrip | frontend/src/services/auth.js:10 | the bearer header reads back as its token |
| AuthClient.ComToken | frontend/src/services/auth.js:7-12 | `Authorization` carries the bearer token iff a truthy token is stored; no other header changes |
| AuthClient.LoginNaoExpira | frontend/src/services/auth.js:27-32 | a failed login request, a failure on the login page, or a status other than 401 never clears the session |
| AuthClient.SemSessao | frontend/src/services/auth.js:60-63 | exactly `token` and `usuario` are removed; every other entry is kept |
| AuthClient.AposLogin | frontend/src/services/auth.js:51-54 | token and user are stored only when the reply carries a token; other entries are kept |
| AuthClient.UsuarioSalvo | frontend/src/services/auth.js:71-74 | the user is returned iff one is stored |
| AuthClient.LoginLogout | frontend/src/services/auth.js:44-80 | after a login with a token the session is authenticated and admin iff the user's role is `admin`; after logout it holds neither |
| AuthClient.SemSessaoIdempotente | frontend/src/services/auth.js:60-63 | logging out twice is logging out once |
| AuthClient.Session.constructor | frontend/src/services/auth.js:8 | the given storage and location |
| AuthClient.Session.Login | frontend/src/services/auth.js:44-57 | the reply is returned; storage is updated by `AposLogin` on a reply and unchanged on a rejection |
| AuthClient.Session.Logout | frontend/src/services/auth.js:60-63 | storage loses exactly the two session keys |
| AuthClient.Session.OnErro | frontend/src/services/auth.js:20-40 | the error is always rejected again; session cleared and view sent to `/login` iff the expiry condition holds |
| AuthClient.Session.IsAuthenticated | frontend/src/services/auth.js:66-68 | true iff a non-empty token is stored |
| AuthClient.Session.GetUsuario | frontend/src/services/auth.js:71-74 | the stored user, or nothing |
| AuthClient.Session.IsAdmin | frontend/src/services/auth.js:77-80 | true iff the stored user has role `admin` |
| AuthContext.AdminAutenticado | frontend/src/contexts/AuthContext.js:30-36 | an administrator is always authenticated |
| AuthContext.Provider.constructor | frontend/src/contexts/AuthContext.js:7-8 | no user, loading |
| AuthContext.Provider.Hidratar | frontend/src/contexts/AuthContext.js:10-17 | the stored user, if any, becomes the user; loading ends |
| AuthContext.Provider.Login | frontend/src/contexts/AuthContext.js:19-23 | on a reply the reply's user is set and the session stored; a rejection changes nothing |
| AuthContext.Provider.Logout | frontend/src/contexts/AuthContext.js:25-28 | storage cleared of the session, no user, not authenticated |
| AuthContext.Provider.IsAuthenticated | frontend/src/contexts/AuthContext.js:30-32 | true iff a user is set |
| AuthContext.Provider.IsAdmin | frontend/src/contexts/AuthContext.js:34-36 | true iff the user's role is `admin` |
| AuthContext.UseAuth | frontend/src/contexts/AuthContext.js:52-58 | the provider iff there is one, otherwise the fixed error |
| LoginPage.Page.constructor | frontend/src/pages/Login.js:10-15 | empty form, not loading |
| LoginPage.Page.Iniciar | frontend/src/pages/Login.js:17-32 | a request is sent iff not loading and both fields are non-empty; empty fields give the error and leave `loading` false |
| LoginPage.Page.Concluir | frontend/src/pages/Login.js:34-63 | `loading` ends; success goes to `/`; failure shows the server's error or `Credenciais inválidas` |
| LoginPage.Page.HandleLogin | frontend/src/pages/Login.js:17-64 | nothing changes while loading; empty fields give their error and no request; otherwise one request and loading off, and on success the session stored as `AposLogin`, the user set, `/` and `Login realizado com sucesso!`, on failure the session, user and page kept with the server's error or `Credenciais inválidas` |
| LoginPage.Page.HandleKeyPress | frontend/src/pages/Login.js:66-71 | Enter when not loading has every effect `HandleLogin` states; any other key, or Enter while loading, changes nothing |
| Backend.IdDe | backend/app/routes/atividades.py:61 | a number names itself as an id; null names none |
| Backend.Primeiro | backend/app/routes/squads.py:39 | `first()`: the least id whose row satisfies the condition, none iff no row does |
| Backend.PrimeiroUnico | backend/app/routes/squads.py:66-67 | with unique values the first row holding a value is the only one |
| Backend.NovoId | backend/app/routes/squads.py:47-48 | a new id is fresh and larger than every id in use |
| SquadsApi.ComNome | backend/app/routes/squads.py:39 | the squad with that name, none iff no squad has it |
| SquadsApi.Criar | backend/app/routes/squads.py:28-53 | a falsy name gives 400, a taken name gives 400, success iff neither; the new row has description default `""`; names stay unique |
| SquadsApi.Atualizada | backend/app/routes/squads.py:64-72 | each field present in the body is replaced, others kept |
| SquadsApi.Atualizar | backend/app/routes/squads.py:56-79 | missing squad is an error; a name held by another squad gives 400; the squad's own name is accepted; only the keys sent change; names stay unique |
| SquadsApi.AtualizarMantemUnicos | backend/app/routes/squads.py:64-69 | an accepted update keeps names unique |
| SquadsApi.Deletar | backend/app/routes/squads.py:82-98 | a squad with activities gives 400; success iff the squad exists and has none; only it is removed |
| SquadsApi.DeletarSemOrfas | backend/app/routes/squads.py:89-92 | a successful delete leaves no activity pointing at a missing squad |
| AtividadesApi.Listar | backend/app/routes/atividades.py:9-33 | exactly the activities meeting every truthy parameter, rows unchanged |
| AtividadesApi.ListarSemFiltro | backend/app/routes/atividades.py:21-28 | falsy parameters filter nothing |
| AtividadesApi.Prazo | backend/app/routes/atividades.py:80-81 | a deadline is set iff the value is a truthy string |
| AtividadesApi.Criar | backend/app/routes/atividades.py:46-89 | title, project, squad required in that order (400); a missing project or squad gives 404; success iff all hold; the new row is `Nova(body)` under a fresh id |
| AtividadesApi.Nova | backend/app/routes/atividades.py:70-81 | description `""` unless sent; priority and status never null: the value sent unless absent or null, which give the column defaults `media` and `pendente`; deadline only when given |
| AtividadesApi.CriarNaoValidaEnums | backend/app/routes/atividades.py:73-74 | a create stores any non-null priority or status the client sends, unchecked; null gives the column default |
| AtividadesApi.Atualizada | backend/app/routes/atividades.py:100-123 | each key sent replaces its field, an empty deadline clears it, keys not sent are kept |
| AtividadesApi.Atualizar | backend/app/routes/atividades.py:92-130 | missing row is an error; success iff every check passes, with the row `Atualizada`; otherwise the first failing check's error |
| AtividadesApi.ErroAtualizacao | backend/app/routes/atividades.py:99-130 | a bad priority gives its 400 before a bad status does; past those and the deadline, a null title is the 500 even when the project or squad is missing, since the lookup's autoflush fails first; with a non-null title a missing project gives its 404 |
| AtividadesApi.AtualizarCampos | backend/app/routes/atividades.py:99-130 | the field-by-field update succeeds iff accepted, with the updated row, else the first failing check's error, a null title failing at the first lookup's autoflush or else at the commit |
| AtividadesApi.AtualizarEnums | backend/app/routes/atividades.py:104-111 | priority and status are copied only when known, else 400 |
| AtividadesApi.AtualizarReferencias | backend/app/routes/atividades.py:112-123 | the deadline, project and squad are copied only when valid, else the error; a null title fails the flush before the first lookup |
| AtividadesApi.AtualizarMantemReferencias | backend/app/routes/atividades.py:114-123 | an accepted update leaves the row pointing at an existing project and squad |
| AtividadesApi.Deletar | backend/app/routes/atividades.py:133-144 | an error iff the row is missing; otherwise exactly it is removed |
| AtividadesApi.CalcularEstatisticas | backend/app/routes/atividades.py:147-172 | the total is the number of rows; status counts and priority counts each sum to at most it |
| AtividadesApi.TresPartes | backend/app/routes/atividades.py:151-160 | three distinct values count each row at most once, exactly once iff each row holds one |
| UsuariosApi.ComLogin | backend/app/routes/usuarios.py:57 | the user with that login, none iff no user has it |
| UsuariosApi.Novo | backend/app/routes/usuarios.py:61-67 | role `analista` and active unless sent; the password set from the body |
| UsuariosApi.Criar | backend/app/routes/usuarios.py:42-77 | non-admin gives 403; missing name, login or password gives 400; a taken login gives 400; logins stay unique |
| UsuariosApi.Atualizado | backend/app/routes/usuarios.py:92-105 | the keys sent replace their fields, `ativo` coerced with `bool`, the password only when non-empty |
| UsuariosApi.Atualizar | backend/app/routes/usuarios.py:80-113 | non-admin gives 403; missing user is an error; a login held by another user gives 400; logins stay unique |
| UsuariosApi.AtualizarMantemUnicos | backend/app/routes/usuarios.py:94-99 | an accepted update keeps logins unique |
| UsuariosApi.SenhaVaziaMantida | backend/app/routes/usuarios.py:104-105 | an empty password keeps the stored one |
| UsuariosApi.Deletar | backend/app/routes/usuarios.py:116-135 | non-admin gives 403; deleting oneself gives 400 before the lookup; success iff admin, another id and present |
| AuthApi.Login | backend/app/routes/auth.py:13-57 | missing fields give 400; unknown login and wrong password give the same 401; an inactive user gets its 401 before the password check; the token carries id and role and lives 30 days with `lembrar`, else 8 hours |
| AuthApi.TokenDeAdmin | backend/app/routes/usuarios.py:8-13 | a token from the login passes the administrator check iff the user's stored role is `admin` |

## Left out

- Rendering, CSS, icons and toast timing. Each message is recorded as a `Notice`.
- The page services' calls (`api.js`) go through their own `axios.create` instance, which has no interceptors. So these calls carry no `Authorization` header, and a 401 on them does not clear the session. `AuthClient.ComToken` and `AuthClient.Session.OnErro` apply only to the session service's login and token-check requests. The model keeps no headers for the page calls.
- AtividadesPage.Page.HandleSubmit, ProjetosPage.Page.HandleSubmit, SquadsPage.Page.HandleSubmit and UsuariosPage.Page.HandleSubmit are modelled for any form, including forms the browser's `required` check would never submit. The required fields are:
  - activities: title, project and squad;
  - projects and teams: the name;
  - users: name and login.

  With one of these empty, `submit` does not fire and no call is made. In particular `UsuariosPage.Page.Rejeitar` with the required-fields message cannot be reached for an empty name or login in a browser. It can still be reached for a name of spaces, and for a new user without a password.
- Network concurrency, `Promise.all` and the order in which replies arrive. Replies are inputs to the
  methods; a list reload is recorded as one `Listar` call.
- `window.confirm` and `confirmAlert` dialogs are a `bool` input. Navigation is a path field.
- JSON serialisation of the stored user. Storage is `map<string, Stored>`, whose entries are plain
  strings or user objects, so `JSON.stringify`/`JSON.parse` are not modelled.
- Percent-encoding in `URLSearchParams`, and `strptime`/`isoformat` date checks. A deadline that is not
  a string is the 500 error; a malformed date string is accepted as text.
- `localeCompare` and the default `sort` are modelled as the code-point order of `Text.LessEq`. Locale
  collation is not modelled, and the code-point order differs from JavaScript's UTF-16 code-unit order
  for characters above U+FFFF.
- Dashboard.Percentual is a real number, not the one-decimal text of `toFixed(1)`.
- The `Atividades.js` `carregarDados` loading of the project and squad selects. It only fills
  dropdown options.
- `usuarioService` is imported by the users page but not exported by `frontend/src/services/api.js`,
  so as written each of the page's calls fails with a `TypeError` before any request is sent. The
  model records the calls the page evidently means to make; the failing import is not modelled.
- Backend list, get and nested-listing handlers. `listar_usuarios` with pagination is left out; the
  pagination helper is a wrapper over the ORM.
- `backend/app/routes/projetos.py`, `/me` and `/check`, `checkToken` and the JWT and password-hash
  primitives. A password matches exactly the value it was set from; a token is its identity, its role
  and its lifetime.
- The association-table cleanup and database cascades on delete, and commit/rollback.
- The session's autoflush is modelled only where it changes an answer: in `atualizar_atividade`, a null title is flushed, and fails, before the first project or squad lookup. This assumes the lookup queries the database, because the request's session does not yet hold that project or squad.
- Backend.Primeiro: `first()` without `order_by` is taken as the least id (SQLite rowid order).
- Non-string JSON values in text columns are stored as given; type coercion by SQLAlchemy is not
  modelled. A null priority or status on a new activity is the exception: it is left out of the
  `INSERT`, so the column default applies (`AtividadesApi.Nova`).
- The user model class is not part of this model, so the column defaults of `usuario` are unknown:
  a null `role` or `ativo` on create is stored as null.
- The 500 texts that come from a Python or database exception (`AtividadesApi.ErroPrazo`,
  `AtividadesApi.ErroTituloNulo`, `SquadsApi.ErroNomeNulo`) are fixed abbreviations. The real
  `str(e)` depends on the Python, SQLAlchemy and database versions and on the value's type; the
  model promises the status and a fixed text only.
- The activity form keeps the project and squad ids as the text of the selected option.
  `handleEdit` puts the numbers `atividade.projeto.id` and `atividade.squad.id` in the form and they
  are sent as numbers until a select is changed; `AtividadesPage.FormDeIds` proves the text reads back
  as those numbers.
- UsuariosPage.Page.HandleSubmit validates with the corrected `Submissao`, not the check as written
  (`SubmissaoComoEscrita`): a name or login of spaces is rejected with "Nome e login são obrigatórios",
  where the code as written sends it as `""`. The Findings row records the difference.
- AtividadesApi.Listar keeps the query as the set of selected ids; the SQL itself is not modelled.

## Findings

| source | as written | input that shows it | evidently intended | confidence | as-written member | corrected member |
|---|---|---|---|---|---|---|
| frontend/src/pages/Usuarios.js:43-57 | the required-field check tests the untrimmed `nome` and `login`, but the payload sends them trimmed | editing with `nome = "   "` and `login = "ana"` passes the check and sends `nome = ""` | a name or login that is blank after trimming is rejected, so the payload never carries an empty one | not executed | UsuariosPage.NomeEmBrancoAceito | UsuariosPage.SubmissaoNaoVazia |
