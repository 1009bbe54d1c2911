# Clinic management screens, modelled in Dafny

This project models the working logic of a web application for a psychology clinic. The
application is written as React components. Each screen keeps its own in-memory state, which
starts from mock data and changes through event handlers.

The screens modelled are:

- the client list and the client form;
- the monthly schedule generator and the day-by-day appointment book;
- the system log;
- the experience notes;
- the clinical evolution notes, including voice dictation;
- the expenses;
- the users and user groups with their permission switches;
- the client types.

Every screen is one Dafny module, and it keeps the shape of its source:

- The screen's state is a `class` with one field per piece of React state. Each handler is a
  `method` whose `modifies`/`ensures` clauses give the complete new state. A ghost `Valid()`
  invariant keeps record ids distinct.
- The logic a handler computes is pulled out into pure functions: the validation, the
  `map`/`filter` that produces the new list, and the lookups. The handler's contract is stated
  through these functions, and the lemmas next to them prove what the screen promises:
  - ids stay unique;
  - an edit changes exactly the record being edited;
  - a filter keeps exactly the records that match;
  - pagination shows every record exactly once;
  - the generated schedule is complete and in chronological order;
  - a sanitised amount contains only allowed characters;
  - dictated text is appended to the field being recorded only (as intended; the screen as
    written sends it elsewhere, see "## Findings").

A few modules are shared by the screens:

- `Text` holds JavaScript string helpers: `trim`, `toLowerCase`, `includes`, `split`,
  `indexOf`, and string order.
- `Lists` covers filtering, the id helpers (`Math.max(...ids, 0) + 1`, map-by-id,
  filter-by-id, find-by-id) and counting.
- `Sorting` is a stable insertion sort by a string key.
- `Calendar` is the proleptic Gregorian calendar behind `Date`.

Some values come from places the model cannot see: the clock, `window.confirm`, the
`FileReader` result, `parseFloat` and the logged-in user's id. These are method parameters.

## Model

| member | source | states |
|---|---|---|
| Text.TrimBlankIff | src/components/TiposCliente/TiposCliente.js:80 | `s.trim()` is empty exactly when every character of `s` is white space, which is the test behind every "required" check |
| Text.TrimShape | src/components/TiposCliente/TiposCliente.js:89 | a trimmed string is a contiguous slice of the input with no white space at either end |
| Text.ContainsIff | src/components/Clientes/ClientesList.js:115-119 | `includes` holds exactly when the term occurs at some position of the text |
| Text.StrLeTotal | src/components/Agendamento/Agendamento.js:363 | string comparison is total, so any two times can be ordered |
| Text.StrLeTrans | src/components/Agendamento/Agendamento.js:363 | string comparison is transitive |
| Text.NatToStringInjective | src/components/GerarAgenda/GerarAgenda.js:159 | different numbers render as different decimal texts |
| Text.SplitOne | src/components/GerarAgenda/GerarAgenda.js:173 | splitting at a separator the pieces do not contain gives the pieces back |
| Lists.NextId | src/components/TiposCliente/TiposCliente.js:94 | `Math.max(...ids, 0) + 1` is at least 1, greater than every id in the list, and one more than some id unless it is 1 |
| Lists.MaxIdPlusOne | src/components/Experiencias/Experiencias.js:248 | `Math.max(...ids) + 1` on a non-empty list is greater than every id and one more than some id |
| Lists.FreshAppendUniqueIds | src/components/TiposCliente/TiposCliente.js:94-99 | appending a record whose id is new keeps ids unique |
| Lists.WithoutIdUnique | src/components/TiposCliente/TiposCliente.js:104-108 | filtering out one id keeps ids unique and removes at most one record |
| Lists.FindIdUnique | src/components/TiposCliente/TiposCliente.js:87-91 | with unique ids, find-by-id returns the record at the position holding that id |
| Lists.FilterKeepsAll | src/components/LogSistema/LogSistema.js:164-174 | a filter whose test holds everywhere returns the list unchanged |
| Lists.CountUpdate | src/components/GruposUsuarios/GruposUsuarios.js:233-240 | replacing one element changes a count by the difference of the old and new element's contribution |
| Sorting.SortByKeyCorrect | src/components/Agendamento/Agendamento.js:363 | the sort by key returns a list ordered by the key that holds each input element as often as the input does |
| Sorting.SortByKeyStable | src/components/Agendamento/Agendamento.js:363 | the sort is stable: for every key, the elements carrying it come out in their input order |
| Calendar.DaysInMonth | src/components/GerarAgenda/GerarAgenda.js:117 | `new Date(y, m, 0).getDate()` is between 28 and 31, and February has 29 days exactly in leap years |
| Calendar.DaysBeforeYearCorrect | src/components/GerarAgenda/GerarAgenda.js:121-122 | the closed-form day count before a year equals the year-by-year count |
| Calendar.MonthBoundary | src/components/GerarAgenda/GerarAgenda.js:121-122 | the first of a month follows the last day of the previous month, across year ends |
| Calendar.WeekdaysInMonth | src/components/GerarAgenda/GerarAgenda.js:152-154 | a month of 28 to 31 days holds each weekday four or five times, and a 28-day month holds each exactly four times |
| ClientesList.Filtrados | src/components/Clientes/ClientesList.js:115-119 | the filtered clients are an ordered sub-list of the clients |
| ClientesList.ClienteListado | src/components/Clientes/ClientesList.js:115-119 | a client is listed exactly when it is stored and the term occurs in its name or e-mail ignoring case, or in its phone |
| ClientesList.BuscaVaziaMantemTodos | src/components/Clientes/ClientesList.js:115-119 | an empty search lists every client in order |
| ClientesList.CorStatus | src/components/Clientes/ClientesList.js:135-137 | "success" exactly for active clients, "error" exactly for inactive ones |
| ClientesList.TextoStatus | src/components/Clientes/ClientesList.js:139-141 | "Ativo" exactly for active clients, "Inativo" exactly for inactive ones |
| ClientesList.Iniciais | src/components/Clientes/ClientesList.js:143-145 | the initials have at most two letters |
| ClientesList.IniciaisDasPalavras | src/components/Clientes/ClientesList.js:143-145 | the initials are the upper-cased first letters of the first two non-empty space-separated words |
| ClientesList.JoinIniciais | src/components/Clientes/ClientesList.js:144 | joining the mapped `n[0]` of every word keeps one letter per non-empty word, in order |
| ClientesList.TelaClientes.constructor | src/components/Clientes/ClientesList.js:44-48 | the screen starts with the given clients, an empty search and the dialog closed |
| ClientesList.TelaClientes.SetSearchTerm | src/components/Clientes/ClientesList.js:44 | typing stores the term and changes nothing else |
| ClientesList.TelaClientes.HandleDelete | src/components/Clientes/ClientesList.js:125-127 | the confirmation opens for that client and no client is removed |
| ClientesList.TelaClientes.ConfirmDelete | src/components/Clientes/ClientesList.js:129-133 | the dialog closes and the client list is unchanged |
| ClienteForm.EmailValidoIff | src/components/Clientes/ClienteForm.js:219 | the decision procedure accepts a string exactly when the unanchored pattern `\S+@\S+\.\S+` matches somewhere in it |
| ClienteForm.MapaErrosChaves | src/components/Clientes/ClienteForm.js:209-221 | a field has an error entry exactly when its check failed, with that check's message |
| ClienteForm.ErrosPorCampo | src/components/Clientes/ClienteForm.js:213-221 | a blank name, an empty gender, marital status or client type, and a non-empty e-mail that fails the pattern each give exactly their own error |
| ClienteForm.ValidoIff | src/components/Clientes/ClienteForm.js:223-224 | the form is valid exactly when the name is not blank, the three selects are chosen and the e-mail is empty or matches |
| ClienteForm.Mostrados | src/components/Clientes/ClienteForm.js:223 | the error state holds every collected message under its field and nothing else |
| ClienteForm.LimparErro | src/components/Clientes/ClienteForm.js:200-206 | after a change the edited field shows no error, and every other field's error is unchanged |
| ClienteForm.MostraConjuge | src/components/Clientes/ClienteForm.js:646 | the spouse section is shown exactly for the married and stable-union statuses |
| ClienteForm.Iniciais | src/components/Clientes/ClienteForm.js:285-288 | this screen's initials, with its empty-name guard, equal the list screen's initials |
| ClienteForm.Formulario.constructor | src/components/Clientes/ClienteForm.js:54-125 | the form starts with its initial fields, no errors and not loading |
| ClienteForm.Formulario.HandleChange | src/components/Clientes/ClienteForm.js:194-207 | the value is stored in the named field and that field's error is cleared |
| ClienteForm.Formulario.RemoverFoto | src/components/Clientes/ClienteForm.js:281-283 | the photo becomes the empty string, its error is cleared, and the rest of the form and `loading` stay |
| ClienteForm.Formulario.ValidateForm | src/components/Clientes/ClienteForm.js:209-225 | the error state becomes the collected errors, and the result is true exactly when there are none |
| ClienteForm.Formulario.HandleSubmit | src/components/Clientes/ClienteForm.js:227-252 | an invalid form only shows its errors; a valid one is sent with the user's id added |
| GerarAgenda.NomeDiaSemanaInverse | src/components/GerarAgenda/GerarAgenda.js:107-115 | a weekday number has a name exactly when it is 0 to 6, and the name found is the one the table pairs with it |
| GerarAgenda.NomeDiaSemanaInjective | src/components/GerarAgenda/GerarAgenda.js:125-127 | different weekday numbers get different names |
| GerarAgenda.DiasDoMesShape | src/components/GerarAgenda/GerarAgenda.js:106-138 | the days are 1 to the month's last day in order, each with a weekday name, and consecutive days fall on consecutive weekdays |
| GerarAgenda.GetDiasDoMes | src/components/GerarAgenda/GerarAgenda.js:106-138 | the loop builds exactly the list of days of the month |
| GerarAgenda.DiasDoClienteCount | src/components/GerarAgenda/GerarAgenda.js:152-154 | a client whose weekday is in the table is due on as many days as the month has of that weekday |
| GerarAgenda.DiasDoClienteUnnamed | src/components/GerarAgenda/GerarAgenda.js:152-154 | a client whose weekday is not in the table gets no days |
| GerarAgenda.AgendaDoMesMembers | src/components/GerarAgenda/GerarAgenda.js:150-169 | an appointment is generated exactly when it is built from an active client and a day of the month on that client's weekday |
| GerarAgenda.IdAgendamentoInjective | src/components/GerarAgenda/GerarAgenda.js:159 | the id `${cliente.id}-${dia.dia}` determines both the client and the day |
| GerarAgenda.AgendaDoMesIdsUnique | src/components/GerarAgenda/GerarAgenda.js:150-169 | when no two clients share an id, no two generated appointments share an id |
| GerarAgenda.SessoesDoCliente | src/components/GerarAgenda/GerarAgenda.js:150-169 | an active client gets one session per day of the month on its weekday, four or five when the weekday is in the table; an inactive client or an unknown weekday gets none |
| GerarAgenda.TotalDaAgenda | src/components/GerarAgenda/GerarAgenda.js:150-185 | the schedule holds as many sessions as the active clients' days on their weekdays add up to |
| GerarAgenda.HoraOrder | src/components/GerarAgenda/GerarAgenda.js:173-175 | valid HH:MM times compare as text exactly as they compare as times |
| GerarAgenda.ChaveNovoAgendamento | src/components/GerarAgenda/GerarAgenda.js:173 | splitting DD/MM/YYYY at '/', reversing and joining with '-' gives YYYY-MM-DD |
| GerarAgenda.ChaveIsoOrder | src/components/GerarAgenda/GerarAgenda.js:172-176 | within one month the sort keys compare as text exactly as (day, time) compare |
| GerarAgenda.AgendaDoMesCronologica | src/components/GerarAgenda/GerarAgenda.js:172-176 | the stored schedule is in chronological order of the dates the sort builds |
| GerarAgenda.MontarAgenda | src/components/GerarAgenda/GerarAgenda.js:150-169 | the nested `forEach` loops push exactly the unsorted schedule |
| GerarAgenda.GeradorAgenda.constructor | src/components/GerarAgenda/GerarAgenda.js:39-96 | the screen starts on the current month and year with the loaded clients and no schedule |
| GerarAgenda.GeradorAgenda.HandleChange | src/components/GerarAgenda/GerarAgenda.js:98-104 | one selector changes and nothing else does |
| GerarAgenda.GeradorAgenda.GerarAgenda | src/components/GerarAgenda/GerarAgenda.js:140-185 | the shown schedule becomes the sorted schedule of the selected month, with a success message giving its length |
| GerarAgenda.GeradorAgenda.LimparAgenda | src/components/GerarAgenda/GerarAgenda.js:187-191 | the schedule and both messages are cleared |
| LogSistema.LogsFiltrados | src/components/LogSistema/LogSistema.js:164-174 | the filtered logs are an ordered sub-list of the logs |
| LogSistema.LogMantido | src/components/LogSistema/LogSistema.js:164-174 | a log is listed exactly when it is stored and every non-empty filter field matches it |
| LogSistema.SemFiltrosMantemTudo | src/components/LogSistema/LogSistema.js:151-174 | with every filter empty, every log is listed in order |
| LogSistema.LimparCampoNaoEsconde | src/components/LogSistema/LogSistema.js:143-174 | emptying one filter field never hides a log that was listed |
| LogSistema.ComCampo | src/components/LogSistema/LogSistema.js:143-147 | the named filter takes the value and every other filter keeps its own |
| LogSistema.TotalPaginas | src/components/LogSistema/LogSistema.js:176 | the fewest pages of ten that hold all filtered logs |
| LogSistema.IndiceSlice | src/components/LogSistema/LogSistema.js:177 | `slice` reads a negative index from the end and clamps an index to the length |
| LogSistema.Pagina | src/components/LogSistema/LogSistema.js:177 | a page holds at most ten logs, those at positions 10(p-1) to 10p, and a page past the last one is empty |
| LogSistema.PaginasReconstroem | src/components/LogSistema/LogSistema.js:176-177 | reading pages 1 to `totalPages` in turn shows every filtered log exactly once, in order |
| LogSistema.Distintos | src/components/LogSistema/LogSistema.js:140 | `[...new Set(s)]` holds exactly the values of `s`, each once |
| LogSistema.DistintosOrdem | src/components/LogSistema/LogSistema.js:140 | the distinct values appear in the order of their first occurrence |
| LogSistema.Usuarios | src/components/LogSistema/LogSistema.js:140 | the user options are exactly the users that appear in the log, each once |
| LogSistema.CorNivel | src/components/LogSistema/LogSistema.js:192-199 | each severity level has its own colour, and every other level gets "default" |
| LogSistema.TelaLog.constructor | src/components/LogSistema/LogSistema.js:41-133 | the screen starts with empty filters on page 1 |
| LogSistema.TelaLog.HandleFiltroChange | src/components/LogSistema/LogSistema.js:143-149 | the named filter changes and the screen returns to page 1 |
| LogSistema.TelaLog.LimparFiltros | src/components/LogSistema/LogSistema.js:151-161 | every filter is emptied on page 1, and the first ten logs are shown |
| LogSistema.TelaLog.SetPage | src/components/LogSistema/LogSistema.js:490 | the page changes and nothing else does |
| Experiencias.Filtradas | src/components/Experiencias/Experiencias.js:151-182 | the filtered experiences are an ordered sub-list |
| Experiencias.ExperienciaMantida | src/components/Experiencias/Experiencias.js:151-182 | an experience is listed exactly when it is stored and passes the client, start-date, end-of-day and text-search filters |
| Experiencias.SemFiltrosMantemTudo | src/components/Experiencias/Experiencias.js:142-182 | cleared filters list every experience in order |
| Experiencias.ComFiltro | src/components/Experiencias/Experiencias.js:126-132 | the named filter takes the value and the others keep theirs |
| Experiencias.ComCampoForm | src/components/Experiencias/Experiencias.js:134-140 | the named form field takes the value and the others keep theirs |
| Experiencias.ClienteSelecionado | src/components/Experiencias/Experiencias.js:228 | the client found has the chosen id, and none is found exactly when no client has it |
| Experiencias.Editadas | src/components/Experiencias/Experiencias.js:232-243 | only the edited experience changes: client, client name and both notes come from the form, and its id and creation time are kept |
| Experiencias.Nova | src/components/Experiencias/Experiencias.js:247-254 | the new experience's id is one more than the largest id, and its content comes from the form and the clock |
| Experiencias.Salvar | src/components/Experiencias/Experiencias.js:223-265 | saving fails, with the runtime's message, exactly when no client is selected and either a create is made or a stored experience has the edited id; otherwise an edit updates in place (the list as it was when no stored experience has that id) and a create puts the new experience first |
| Experiencias.EdicaoSemAlvo | src/components/Experiencias/Experiencias.js:232-243 | with no stored experience of the edited id, the edit's `map` gives back the list unchanged |
| Experiencias.SalvarMantemIds | src/components/Experiencias/Experiencias.js:223-265 | saving keeps ids unique, and a create adds exactly one record |
| Experiencias.Excluidas | src/components/Experiencias/Experiencias.js:269 | exactly the experiences with another id remain, in order |
| Experiencias.TruncarTexto | src/components/Experiencias/Experiencias.js:279-281 | a text longer than the limit becomes its first `limite` characters followed by "..."; a shorter one is unchanged |
| Experiencias.TelaExperiencias.constructor | src/components/Experiencias/Experiencias.js:50-124 | the screen starts with the loaded experiences and clients, empty filters and an empty form |
| Experiencias.TelaExperiencias.HandleFiltroChange | src/components/Experiencias/Experiencias.js:126-132 | the filters change through `ComFiltro` and nothing else does |
| Experiencias.TelaExperiencias.HandleFormChange | src/components/Experiencias/Experiencias.js:134-140 | the form changes through `ComCampoForm` and nothing else does |
| Experiencias.TelaExperiencias.LimparFiltros | src/components/Experiencias/Experiencias.js:142-149 | the filters are emptied, every experience is listed, and nothing else changes |
| Experiencias.TelaExperiencias.AbrirDialog | src/components/Experiencias/Experiencias.js:184-201 | the dialog opens with the experience's values, or with an empty form for a new one, and nothing else changes |
| Experiencias.TelaExperiencias.FecharDialog | src/components/Experiencias/Experiencias.js:203-211 | the dialog closes and the form is emptied |
| Experiencias.TelaExperiencias.SalvarExperiencia | src/components/Experiencias/Experiencias.js:223-265 | the state becomes the outcome of `Salvar`, and on success the dialog closes |
| Experiencias.TelaExperiencias.ExcluirExperiencia | src/components/Experiencias/Experiencias.js:267-272 | after confirmation the experience is removed and a success message is shown; otherwise nothing changes; the form, the dialog, the filters, the error and `loading` always stay |
| TiposCliente.Submeter | src/components/TiposCliente/TiposCliente.js:77-102 | a blank description is refused with its message; an edit renames only the edited type, and an addition appends a type whose id is one more than the largest id, or 1; the description is trimmed |
| TiposCliente.SubmeterMantemIds | src/components/TiposCliente/TiposCliente.js:86-99 | a submit keeps type ids unique |
| TiposCliente.EdicaoRenomeia | src/components/TiposCliente/TiposCliente.js:86-91 | after an edit, looking up the edited id finds the type with the trimmed new description |
| TiposCliente.TelaTipos.constructor | src/components/TiposCliente/TiposCliente.js:36-40 | the screen starts with Particular, Convênio and Empresa and the dialog closed |
| TiposCliente.TelaTipos.HandleOpen | src/components/TiposCliente/TiposCliente.js:50-60 | a given type is loaded for editing; none starts an empty form |
| TiposCliente.TelaTipos.HandleClose | src/components/TiposCliente/TiposCliente.js:62-67 | the dialog closes, the form is emptied and the error is cleared |
| TiposCliente.TelaTipos.HandleChange | src/components/TiposCliente/TiposCliente.js:69-75 | the typed text is stored and the error is hidden |
| TiposCliente.TelaTipos.HandleSubmit | src/components/TiposCliente/TiposCliente.js:77-102 | a refused submit only sets the error; an accepted one stores the new list and closes the dialog |
| TiposCliente.TelaTipos.HandleDelete | src/components/TiposCliente/TiposCliente.js:104-108 | after confirmation the type with that id is removed; otherwise nothing changes |
| GruposUsuarios.Com | src/components/GruposUsuarios/GruposUsuarios.js:166-173 | setting one switch leaves the other nine as they were |
| GruposUsuarios.ContarPermissoes | src/components/GruposUsuarios/GruposUsuarios.js:233-240 | the count is at most ten; it is ten exactly when every switch is on and zero exactly when none is |
| GruposUsuarios.MarcarConta | src/components/GruposUsuarios/GruposUsuarios.js:166-173 | turning on a switch that was off adds exactly one to the count |
| GruposUsuarios.DesmarcarConta | src/components/GruposUsuarios/GruposUsuarios.js:166-173 | turning off a switch that was on takes exactly one from the count |
| GruposUsuarios.Chips | src/components/GruposUsuarios/GruposUsuarios.js:333-358 | exactly one chip is shown: "Super Admin" for a super administrator, else "Admin" for an administrator, else "Usuário" |
| GruposUsuarios.Submeter | src/components/GruposUsuarios/GruposUsuarios.js:175-225 | a blank name is refused; an edit replaces only the edited group, and an addition appends one whose id is one more than the largest id, or 1; name and note are trimmed |
| GruposUsuarios.SubmeterMantemIds | src/components/GruposUsuarios/GruposUsuarios.js:184-222 | a submit keeps group ids unique |
| GruposUsuarios.AbrirESalvar | src/components/GruposUsuarios/GruposUsuarios.js:108-225 | opening a group and saving it unchanged gives back the same permissions with name and note trimmed |
| GruposUsuarios.Alterar | src/components/GruposUsuarios/GruposUsuarios.js:166-173 | a text event sets its field; a checkbox sets its switch and leaves the rest of the form alone |
| GruposUsuarios.TelaGrupos.constructor | src/components/GruposUsuarios/GruposUsuarios.js:41-87 | the screen starts with Administrador (every switch on), Psicólogo and Recepcionista with their switches |
| GruposUsuarios.TelaGrupos.HandleOpen | src/components/GruposUsuarios/GruposUsuarios.js:108-144 | a given group is copied into the form; none starts an empty form |
| GruposUsuarios.TelaGrupos.HandleClose | src/components/GruposUsuarios/GruposUsuarios.js:146-164 | the dialog closes and the form is emptied |
| GruposUsuarios.TelaGrupos.HandleChange | src/components/GruposUsuarios/GruposUsuarios.js:166-173 | the form changes through `Alterar` and the error is hidden |
| GruposUsuarios.TelaGrupos.HandleSubmit | src/components/GruposUsuarios/GruposUsuarios.js:175-225 | a refused submit only sets the error; an accepted one stores the new list and closes the dialog |
| GruposUsuarios.TelaGrupos.HandleDelete | src/components/GruposUsuarios/GruposUsuarios.js:227-231 | after confirmation the group is removed; otherwise nothing changes |
| Usuarios.Verificar | src/components/Usuarios/Usuarios.js:152-160 | the required-fields message comes first; the password message comes only when the required fields are present |
| Usuarios.Erro | src/components/Usuarios/Usuarios.js:152-160 | a blank name, e-mail or login, or no group, gives the required-fields message; otherwise a new user with a blank password gives the password message |
| Usuarios.Editado | src/components/Usuarios/Usuarios.js:162-177 | an edit keeps the id, and keeps the stored password unless a non-blank one was typed, which is then stored untrimmed |
| Usuarios.Submeter | src/components/Usuarios/Usuarios.js:149-194 | refused with the first failing check's message; otherwise an edit replaces only the edited user and an addition appends one whose id is one more than the largest id, or 1 |
| Usuarios.NovoTemSenha | src/components/Usuarios/Usuarios.js:157-160 | every new user is stored with a password that is not blank |
| Usuarios.SubmeterMantemIds | src/components/Usuarios/Usuarios.js:162-190 | a submit keeps user ids unique |
| Usuarios.EditarSemSenhaMantem | src/components/Usuarios/Usuarios.js:162-177 | opening a user and saving with no password typed keeps the stored password |
| Usuarios.GrupoNome | src/components/Usuarios/Usuarios.js:202-205 | "N/A" exactly when no group has that id; otherwise the name of the group with that id |
| Usuarios.AdministradoresNoGrupo1 | src/components/Usuarios/Usuarios.js:247 | the administrators card counts exactly the users whose group is shown as "Administrador", the users of group 1 |
| Usuarios.Alterar | src/components/Usuarios/Usuarios.js:127-133 | the named field takes the value and the others keep theirs |
| Usuarios.TelaUsuarios.constructor | src/components/Usuarios/Usuarios.js:43-62 | the screen starts with the two mock users and the dialog closed |
| Usuarios.TelaUsuarios.HandleOpen | src/components/Usuarios/Usuarios.js:84-110 | a given user is copied into the form with an empty password; none starts an empty form |
| Usuarios.TelaUsuarios.HandleClose | src/components/Usuarios/Usuarios.js:112-125 | the dialog closes and the form is emptied |
| Usuarios.TelaUsuarios.HandleChange | src/components/Usuarios/Usuarios.js:127-133 | the form changes through `Alterar` and the error is hidden |
| Usuarios.TelaUsuarios.HandleFileChange | src/components/Usuarios/Usuarios.js:135-147 | the photo becomes the file's data URL; with no file nothing changes |
| Usuarios.TelaUsuarios.HandleSubmit | src/components/Usuarios/Usuarios.js:149-194 | a refused submit only sets the error; an accepted one stores the new list and closes the dialog |
| Usuarios.TelaUsuarios.HandleDelete | src/components/Usuarios/Usuarios.js:196-200 | after confirmation the user is removed; otherwise nothing changes |
| Evolucao.Registro | src/components/Evolucao/Evolucao.js:210-225 | the stored record has the given id and every other field from the form |
| Evolucao.Submeter | src/components/Evolucao/Evolucao.js:202-227 | refused exactly when the client, date, procedure, synthesis or conduct is missing; an edit overwrites only the edited record, and an addition appends one with a fresh id |
| Evolucao.SubmeterMantemIds | src/components/Evolucao/Evolucao.js:210-225 | a submit keeps record ids unique |
| Evolucao.EdicaoGrava | src/components/Evolucao/Evolucao.js:210-217 | after an edit, looking up the edited id finds exactly the form's contents |
| Evolucao.ClienteNome | src/components/Evolucao/Evolucao.js:235-238 | "Cliente não encontrado" exactly when no client has that id; otherwise the name of the client with that id |
| Evolucao.Transcrever | src/components/Evolucao/Evolucao.js:94-105 | the loop collects the final and the interim transcripts of the results from `resultIndex` on |
| Evolucao.FinaisSaoOsFinais | src/components/Evolucao/Evolucao.js:98-105 | the final transcript joins exactly the final results in order, and the interim transcript joins the others |
| Evolucao.NadaSePerde | src/components/Evolucao/Evolucao.js:98-105 | every result's text goes to exactly one of the two transcripts |
| Evolucao.Ditar | src/components/Evolucao/Evolucao.js:107-112 | a non-empty final transcript is appended to the current field only; otherwise the form is unchanged |
| Evolucao.IniciarEDitarComoEscrito | src/components/Evolucao/Evolucao.js:85-128 | as written, the started recognizer dictates into the field that was current before the toggle: nothing from an idle screen, and never into the started field |
| Evolucao.IniciarEDitar | src/components/Evolucao/Evolucao.js:183-200 | as intended, the text goes to the end of the field whose recording was started and nowhere else |
| Evolucao.DitadoDoRepousoSePerde | src/components/Evolucao/Evolucao.js:107-112 | on an idle screen, starting the procedure's recording and dictating "sessão" leaves the form unchanged, where the intended screen appends it |
| Evolucao.DitarDuasVezes | src/components/Evolucao/Evolucao.js:107-112 | dictating `a` and then `b` to a field is the same as dictating `a + b` |
| Evolucao.ComGravando | src/components/Evolucao/Evolucao.js:183-200 | one field's recording flag changes and the others keep theirs |
| Evolucao.Alterar | src/components/Evolucao/Evolucao.js:175-181 | the named field takes the value and the others keep theirs |
| Evolucao.TelaEvolucao.constructor | src/components/Evolucao/Evolucao.js:45-55 | the screen starts with the mock record, the dialog closed and nothing recording |
| Evolucao.TelaEvolucao.HandleOpen | src/components/Evolucao/Evolucao.js:131-155 | a given record is copied into the form; a new one starts with today's date |
| Evolucao.TelaEvolucao.HandleClose | src/components/Evolucao/Evolucao.js:157-173 | the dialog closes and the form is emptied |
| Evolucao.TelaEvolucao.HandleChange | src/components/Evolucao/Evolucao.js:175-181 | the form changes through `Alterar` and the error is hidden |
| Evolucao.TelaEvolucao.HandleVoiceToggle | src/components/Evolucao/Evolucao.js:183-200 | without speech recognition an alert is raised and nothing changes; otherwise the field's recording starts or stops |
| Evolucao.TelaEvolucao.OnResult | src/components/Evolucao/Evolucao.js:94-113 | as intended, the final transcript of the new results is dictated into the field being recorded (see "## Findings" for the screen as written) |
| Evolucao.TelaEvolucao.OnEnd | src/components/Evolucao/Evolucao.js:115-124 | recording stops and no field is current |
| Evolucao.TelaEvolucao.HandleSubmit | src/components/Evolucao/Evolucao.js:202-227 | a refused submit only sets the error; an accepted one stores the new list and closes the dialog |
| Evolucao.TelaEvolucao.HandleDelete | src/components/Evolucao/Evolucao.js:229-233 | after confirmation the record is removed; otherwise nothing changes |
| Despesas.Limpar | src/components/Despesas/Despesas.js:114-116 | the result keeps, in order, exactly the digits, commas and dots of the input |
| Despesas.TrocarPrimeiraVirgula | src/components/Despesas/Despesas.js:117-122 | only the first comma, if any, becomes a dot |
| Despesas.Sanitizar | src/components/Despesas/Despesas.js:114-122 | the sanitised amount holds only allowed characters, as many as the input has |
| Despesas.SanitizarDigitosEPontos | src/components/Despesas/Despesas.js:114-122 | an amount of digits and dots only is left unchanged |
| Despesas.SanitizarVirgulas | src/components/Despesas/Despesas.js:114-122 | sanitising turns exactly one comma of the cleaned text, the first, into a dot, and leaves no comma when the cleaned text had none |
| Despesas.LimparIdempotente | src/components/Despesas/Despesas.js:114-116 | cleaning twice is the same as cleaning once |
| Despesas.Verificar | src/components/Despesas/Despesas.js:134-143 | the missing-fields message comes first; the invalid-amount message comes only when the fields are present |
| Despesas.Editado | src/components/Despesas/Despesas.js:147-159 | an edit keeps the id and creation time and takes the date, amount and type from the form and the description trimmed |
| Despesas.Submeter | src/components/Despesas/Despesas.js:131-174 | refused with the missing-fields message exactly when a field is empty, else with the invalid-amount message exactly when the amount is not a positive number; otherwise an edit or an addition |
| Despesas.SubmeterMantem | src/components/Despesas/Despesas.js:145-170 | a submit keeps ids unique and every amount positive |
| Despesas.DescricaoEmBrancoAceita | src/components/Despesas/Despesas.js:134-137 | a description of a single blank passes the check and is stored as the empty string |
| Despesas.ExcluirMantem | src/components/Despesas/Despesas.js:176-180 | a deletion keeps ids unique and every amount positive |
| Despesas.TipoDespesaNome | src/components/Despesas/Despesas.js:182-185 | "Tipo não encontrado" exactly when no expense type has that id; otherwise the name of the type with that id |
| Despesas.Alterar | src/components/Despesas/Despesas.js:113-129 | the named field takes the value, and an amount is sanitised first |
| Despesas.TelaDespesas.constructor | src/components/Despesas/Despesas.js:42-59 | the screen starts with the mock expenses and the dialog closed |
| Despesas.TelaDespesas.HandleOpen | src/components/Despesas/Despesas.js:79-99 | a given expense is copied into the form; a new one starts with today's date |
| Despesas.TelaDespesas.HandleClose | src/components/Despesas/Despesas.js:101-111 | the dialog closes and the form is emptied |
| Despesas.TelaDespesas.HandleChange | src/components/Despesas/Despesas.js:113-129 | the form changes through `Alterar` and the error is hidden |
| Despesas.TelaDespesas.HandleSubmit | src/components/Despesas/Despesas.js:131-174 | a refused submit only sets the error; an accepted one stores the new list and closes the dialog |
| Despesas.TelaDespesas.HandleDelete | src/components/Despesas/Despesas.js:176-180 | after confirmation the expense is removed; otherwise nothing changes |
| Agendamento.ClienteNome | src/components/Agendamento/Agendamento.js:208 | no name exactly when no client has the chosen id; otherwise the name of the client with that id |
| Agendamento.CorStatus | src/components/Agendamento/Agendamento.js:259-262 | "default" exactly when no status option has that value; otherwise the colour of the option with that value |
| Agendamento.Editado | src/components/Agendamento/Agendamento.js:210-221 | an edit keeps the id and takes every form field, the client's name and the user's id |
| Agendamento.Salvar | src/components/Agendamento/Agendamento.js:204-239 | an edit replaces only the edited appointment; a create appends one whose id is the clock reading |
| Agendamento.EdicaoMantemIds | src/components/Agendamento/Agendamento.js:210-221 | an edit keeps appointment ids unique |
| Agendamento.CriacaoMantemIds | src/components/Agendamento/Agendamento.js:222-231 | a create keeps ids unique exactly when the clock reading is not already an id |
| Agendamento.EdicaoGrava | src/components/Agendamento/Agendamento.js:210-221 | after an edit, looking up the edited id finds the form's contents |
| Agendamento.MudarStatus | src/components/Agendamento/Agendamento.js:247-253 | appointments with that id take the new status; every other status is unchanged |
| Agendamento.MudarStatusSoStatus | src/components/Agendamento/Agendamento.js:247-253 | a status change changes nothing but the status |
| Agendamento.Excluir | src/components/Agendamento/Agendamento.js:241-245 | exactly the appointments with another id remain, in order |
| Agendamento.DoDia | src/components/Agendamento/Agendamento.js:255-257 | exactly the appointments of that date remain, in order |
| Agendamento.ListaDoDiaCorreta | src/components/Agendamento/Agendamento.js:362-363 | the day's list is sorted by time, is a permutation of that day's appointments, holds exactly them, and keeps appointments at the same time in their stored order |
| Agendamento.PodeSalvar | src/components/Agendamento/Agendamento.js:612 | saving is allowed exactly when not loading and a client, a date and a time are filled in |
| Agendamento.Alterar | src/components/Agendamento/Agendamento.js:197-202 | the named field takes the value and the others keep theirs |
| Agendamento.TelaAgendamento.constructor | src/components/Agendamento/Agendamento.js:82-122 | the screen starts on today with the mock appointments and the dialog closed |
| Agendamento.TelaAgendamento.PreencherFormulario | src/components/Agendamento/Agendamento.js:144-170 | while the dialog is open the form shows the edited appointment, or a new one on the selected date |
| Agendamento.TelaAgendamento.HandleDateChange | src/components/Agendamento/Agendamento.js:172-174 | the selected date changes and the open form is refilled |
| Agendamento.TelaAgendamento.HandleOpenDialog | src/components/Agendamento/Agendamento.js:176-179 | the dialog opens with the appointment's values, or a new one on the selected date |
| Agendamento.TelaAgendamento.HandleCloseDialog | src/components/Agendamento/Agendamento.js:181-195 | the dialog closes and the form is reset |
| Agendamento.TelaAgendamento.HandleChange | src/components/Agendamento/Agendamento.js:197-202 | the form changes through `Alterar` and nothing else does |
| Agendamento.TelaAgendamento.HandleSubmit | src/components/Agendamento/Agendamento.js:204-239 | the list becomes the outcome of `Salvar`, and the dialog closes |
| Agendamento.TelaAgendamento.HandleDelete | src/components/Agendamento/Agendamento.js:241-245 | after confirmation the appointment is removed; otherwise nothing changes |
| Agendamento.TelaAgendamento.HandleStatusChange | src/components/Agendamento/Agendamento.js:247-253 | the list becomes the outcome of `MudarStatus` |

## Left out

- Rendering: JSX, themes, icons, tabs and dialogs as visual elements. Only the state they show is modelled.
- The landing page, dashboard, layout, routing, login screen and authentication context are not part of this model. Neither is the API client.
- Navigation (`navigate`), `console.log`, `setTimeout` delays and the `loading` spinners' timing are not modelled. The `loading` flags are kept as booleans.
- Nondeterministic inputs are parameters: the clock (`Date.now()`, `new Date()`, today's date), `window.confirm`, `alert`, the logged-in user's id and the `FileReader` result.
- Floating point: `parseFloat` of an amount is a parameter (`Numero`, either NaN or a real number). The expenses total, `Intl.NumberFormat` and `toFixed` are not modelled.
- Dates are compared as text (`YYYY-MM-DD…` strings) where the source compares them as text. Time zones and `toLocaleString` formatting are not modelled.
- `localeCompare` on `HH:MM` times is modelled as code-point order, which agrees with it on such strings.
- Experiencias.Nova: requires a non-empty list, because `Math.max()` of no ids is `-Infinity` and the id would not be an integer.
- Experiencias.Salvar: requires a non-empty list when creating with a found client, for the same reason.
- Experiencias.TruncarTexto: lengths and cuts count Unicode code points. JavaScript's `.length` and `substring` count UTF-16 code units, so a text with characters outside the Basic Multilingual Plane is cut at a different place, possibly inside a surrogate pair.
- Experiencias: the start-date and end-date filters compare the dates as instants given as parameters. `new Date` parsing is not modelled.
- GerarAgenda.GetDiasDoMes: requires a month from 1 to 12 and a year from 1000 to 9999, the selector's choices. Dates outside them are not modelled.
- GerarAgenda.GeradorAgenda.GerarAgenda: the `catch` branch is not modelled; it cannot be reached with the selector's choices.
- Evolucao: starting and stopping the browser's `SpeechRecognition` are not modelled. Only the handling of its results and events is.
- Evolucao.TelaEvolucao.OnResult: models the intended behaviour, dictating into the current field. The screen as written dictates into the field its started recognizer's closure captured; that behaviour is `IniciarEDitarComoEscrito`, listed under "## Findings".
- Usuarios.TelaUsuarios.HandleFileChange: the reader's result is applied to the current form. A `formData` captured before later typing, which the source's closure would restore, is not modelled.
- Despesas.TelaDespesas.HandleOpen: `valor.toString()` is a parameter.
- Agendamento: `duracao` and `valor` are kept as the text the inputs hold, and the number 50 of a new form is the text "50". A missing user, for which `user.id` would throw, is not modelled.
- `obs || ''` and other fallbacks for fields missing from a record are not modelled, because every record the model builds has every field.
- Case conversion (`toLowerCase`/`toUpperCase`) covers ASCII letters and the Latin-1 letters that have a one-character Latin-1 partner. ß (U+00DF), ÿ (U+00FF) and µ (U+00B5) are left unchanged by the upper-casing, where JavaScript gives "SS", U+0178 and U+039C. Letters beyond Latin-1 are left unchanged too.
- ClientesList.Iniciais: the bound of at most two letters holds for the model's upper-casing only. In the source a name such as "ß ß" gives "SSSS", because `toUpperCase` turns ß into two letters.
- ClientesList.JoinIniciais: `n[0]` is modelled as the first code point of the word. JavaScript takes the first UTF-16 code unit, which for a word starting with a character outside the Basic Multilingual Plane is a lone surrogate.
- Text.StrLe: strings are compared by code points. JavaScript's `<` compares UTF-16 code units, which orders characters outside the Basic Multilingual Plane differently from some characters above U+D7FF.
- GerarAgenda.GeradorAgenda.GerarAgenda: the schedule is sorted by the text key (ISO date, then `hora_atendimento`). For clients whose times are `HH:MM` this is the source's `Date` order (`AgendaDoMesCronologica`). For a time in another form the source's comparator returns NaN and the resulting order is implementation-defined; the model does not capture that order.

## Findings

| source | as written | input that shows it | evidently intended | confidence | as-written member | corrected member |
|---|---|---|---|---|---|---|
| src/components/Evolucao/Evolucao.js:85-128 | the effect rebuilds the recognizer whenever `currentField` changes, and `handleVoiceToggle` (lines 183-200) starts the instance built before the toggle, whose `onresult` still sees the earlier `currentField` | on an idle screen, turn on the procedure's microphone and dictate "sessão": the procedure stays empty; while one field records, turning on another sends the text to the first | the text is appended to the field whose microphone was turned on | high; not executed | Evolucao.IniciarEDitarComoEscrito, Evolucao.DitadoDoRepousoSePerde | Evolucao.IniciarEDitar |
