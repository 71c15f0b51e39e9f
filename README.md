# One-Pilates front end: verified model of its logic

One-Pilates is a React front end for managing a Pilates and physiotherapy
studio. Secretaries register students, follow a dashboard and export
reports. Teachers and staff edit their own profiles. Almost all of it is
markup and REST calls. This project models in Dafny the deterministic
logic inside it, and proves what that logic promises:

- **Student registration wizard** (`RegisterStudent`, `register_student.dfy`).
  - The CPF (Brazilian taxpayer number) check with its two modulo-11 check
    digits, and the email pattern.
  - The per-step validation that builds the error map.
  - Step navigation, the record updates that clear their errors, the
    postal-code (CEP) auto-fill and the submission payload.
  - The wizard is a class. Its state is the step, the three records and the
    error map.
- **Shared utilities** (`Utils`, `utils.dfy`): the phone formatter, the
  password rules, the email result, the weekday lookup and the specialty
  colours.
- **Profile editor** (`Profile`, `profile.dfy`).
  - The live phone mask, the specialty toggle and the dirty check.
  - Cancel and save, the role endpoints, the outgoing DTO and the photo-file
    rule.
  - The editor is a class over the edited and loaded records.
- **Secretary dashboard** (`Dashboard`, `dashboard.dfy`).
  - The total, the pie, the busiest day and professor (ties go to the
    later entry), a stable top three and the KPI cards.
  - The empty and error fallback.
  - The component state is a class.
- **Student report export** (`Export`, `export.dfy`): the PDF and XLSX rows
  and the summary counts.
- **Account menu** (`Account`, `account.dfy`): the role label, the display
  name, the dark-mode toggle and the admin modal.
- **Helpers.** `Maybe` (`option.dfy`) holds an `Option` type with
  JavaScript truthiness. `Text` (`text.dfy`) holds digit stripping,
  ECMAScript `trim`, ASCII case mapping, substring search and decimal text.

Replies from the server, the postal-code service and the photo upload are
method parameters: the reply value, or `None` for a failed request. Dates
are whole day numbers.

## Model

| member | source | states |
|---|---|---|
| RegisterStudent.ValidarCPF | src/pages/Secretary/RegisterStudent/index.jsx:15-39 | the two summing loops return exactly `CpfValido`: 11 digits after stripping, not all equal, and both modulo-11 check digits match |
| RegisterStudent.DigitoVerificador | src/pages/Secretary/RegisterStudent/index.jsx:26-27 | `(soma * 10) % 11` with 10 mapped to 0 is always a single digit |
| RegisterStudent.DigitoVerificadorPadrao | src/pages/Secretary/RegisterStudent/index.jsx:26-27 | for non-negative sums, the check digit equals the usual CPF form: 0 when `soma % 11 < 2`, else `11 - soma % 11` |
| RegisterStudent.CpfValidoIgnoresPunctuation | src/pages/Secretary/RegisterStudent/index.jsx:16-18 | punctuation never changes the verdict: validating a CPF equals validating its digits |
| RegisterStudent.SomaPonderadaPrefixo | src/pages/Secretary/RegisterStudent/index.jsx:23-33 | a weighted sum depends only on the digits it weighs |
| RegisterStudent.SomaExemplo1 | src/pages/Secretary/RegisterStudent/index.jsx:23-25 | for 11144477735 the first weighted sum (weights 10..2) is 162 |
| RegisterStudent.SomaExemplo2 | src/pages/Secretary/RegisterStudent/index.jsx:31-33 | for 11144477735 the second weighted sum (weights 11..2) is 204 |
| RegisterStudent.DigitosExemplo | src/pages/Secretary/RegisterStudent/index.jsx:26-27 | the check digits of 162 and 204 are 3 and 5 |
| RegisterStudent.CpfExemploValido | src/pages/Secretary/RegisterStudent/index.jsx:15-39 | 11144477735 is accepted |
| RegisterStudent.CpfExemploDigitoErrado | src/pages/Secretary/RegisterStudent/index.jsx:35-36 | 11144477736 is rejected by the second check digit |
| RegisterStudent.CpfExemploRepetido | src/pages/Secretary/RegisterStudent/index.jsx:18 | 11111111111 is rejected as a repeated digit |
| RegisterStudent.ValidarEmail | src/pages/Secretary/RegisterStudent/index.jsx:42-45 | true exactly when the email matches `^[^\s@]+@[^\s@]+\.[^\s@]+$` |
| RegisterStudent.EmailValidoNaoVazio | src/pages/Secretary/RegisterStudent/index.jsx:158-162 | an email the pattern accepts is never blank, so the "obrigatório" message and the "inválido" message exclude each other |
| RegisterStudent.MesclarPessoaisCampos | src/pages/Secretary/RegisterStudent/index.jsx:93-96 | a merge changes only fields the update carries, and every carried field takes the new value |
| RegisterStudent.ComErroSemMensagemVazia | src/pages/Secretary/RegisterStudent/index.jsx:152-204 | adding a non-empty message keeps every message in the map non-empty |
| RegisterStudent.DigitsNaoVazio | src/pages/Secretary/RegisterStudent/index.jsx:184-187 | a string with a digit is not blank |
| RegisterStudent.ErrosCamposPessoais | src/pages/Secretary/RegisterStudent/index.jsx:155-188 | each step-1 rule reports an error exactly when its field fails: blank name, email not matching, invalid CPF, birth date missing or not accepted, fewer than 10 phone digits |
| RegisterStudent.Etapa1Campos | src/pages/Secretary/RegisterStudent/index.jsx:151-189 | the step-1 map has only the five personal keys, each present exactly when its rule fails; all five rules run |
| RegisterStudent.Etapa1Valida | src/pages/Secretary/RegisterStudent/index.jsx:151-207 | step 1 passes exactly when all five fields are valid |
| RegisterStudent.Etapa2Campos | src/pages/Secretary/RegisterStudent/index.jsx:191-204 | the step-2 map has only the seven address keys: CEP without 8 digits, the four blank text fields, and empty state and UF |
| RegisterStudent.Etapa2Valida | src/pages/Secretary/RegisterStudent/index.jsx:191-207 | step 2 passes exactly when the CEP has 8 digits, the four text fields are not blank, and state and UF are non-empty |
| RegisterStudent.ErrosEnderecoSemMensagemVazia | src/pages/Secretary/RegisterStudent/index.jsx:193-203 | every step-2 message is non-empty |
| RegisterStudent.ErrosDadosPessoaisSemMensagemVazia | src/pages/Secretary/RegisterStudent/index.jsx:155-188 | every step-1 message is non-empty |
| RegisterStudent.ErrosEtapaSemMensagemVazia | src/pages/Secretary/RegisterStudent/index.jsx:151-207 | every message of any step is non-empty; steps 3 and 4 give the empty map |
| RegisterStudent.ValidarIdentificacao | src/pages/Secretary/RegisterStudent/index.jsx:155-167 | the successive assignments record the name, email and CPF errors as the rules define |
| RegisterStudent.ValidarDadosPessoais | src/pages/Secretary/RegisterStudent/index.jsx:154-189 | the step-1 assignments build exactly the step-1 error map |
| RegisterStudent.ValidarEndereco | src/pages/Secretary/RegisterStudent/index.jsx:191-204 | the step-2 assignments build exactly the step-2 error map |
| RegisterStudent.MontarPayload | src/pages/Secretary/RegisterStudent/index.jsx:275-295 | CPF and CEP are sent digits only and keep every digit; status and notifications are always on; the limitations flag is the mobility answer |
| RegisterStudent.PayloadDeDadosValidados | src/pages/Secretary/RegisterStudent/index.jsx:275-295 | after steps 1 and 2 pass, the payload's CPF is 11 digits and valid, and its CEP is 8 digits |
| RegisterStudent.Wizard.constructor | src/pages/Secretary/RegisterStudent/index.jsx:51-84 | starts at step 1 with no errors and the records passed by navigation, or the empty ones |
| RegisterStudent.Wizard.LimparErros | src/pages/Secretary/RegisterStudent/index.jsx:99-101 | the `forEach` removes exactly the given keys from the error map |
| RegisterStudent.Wizard.AtualizarDadosPessoais | src/pages/Secretary/RegisterStudent/index.jsx:93-104 | merges the update and deletes the errors of exactly the updated keys; step, address and student info unchanged |
| RegisterStudent.Wizard.AtualizarEndereco | src/pages/Secretary/RegisterStudent/index.jsx:106-117 | merges the address update and deletes the errors of exactly its keys; everything else unchanged |
| RegisterStudent.Wizard.AtualizarInformacoesAluno | src/pages/Secretary/RegisterStudent/index.jsx:119-121 | merges the student information and leaves the errors alone |
| RegisterStudent.Wizard.BuscarCep | src/pages/Secretary/RegisterStudent/index.jsx:124-148 | looks up only an 8-digit CEP; a hit overwrites street, district, city, and state and UF from `uf` ('' when absent), and clears their errors; number and CEP are kept; a miss or failure changes nothing |
| RegisterStudent.Wizard.ValidarEtapa | src/pages/Secretary/RegisterStudent/index.jsx:151-208 | the new map replaces the old one entirely, and the result is true exactly when it is empty |
| RegisterStudent.Wizard.ProximaEtapa | src/pages/Secretary/RegisterStudent/index.jsx:210-224 | advances one step only when validation passes (step 3 reaches 4 through `finalizar`), never past 4; records untouched |
| RegisterStudent.Wizard.EtapaAnterior | src/pages/Secretary/RegisterStudent/index.jsx:226-230 | goes back one step only above step 1 |
| RegisterStudent.Wizard.IrParaEtapa | src/pages/Secretary/RegisterStudent/index.jsx:232-236 | jumps only to a step between 1 and the current one; otherwise nothing changes |
| RegisterStudent.Wizard.Finalizar | src/pages/Secretary/RegisterStudent/index.jsx:238-246 | moves to the confirmation step 4 |
| RegisterStudent.Wizard.CancelarCadastro | src/pages/Secretary/RegisterStudent/index.jsx:248-273 | resets the three records to their empty values (the photo entry is dropped); step and errors are kept |
| Utils.FormatarTelefone | src/utils/utils.js:2-3 | an absent or empty phone gives '' |
| Utils.FormatarTelefoneCases | src/utils/utils.js:2-11 | 11 digits give "(DD) DDDDD-DDDD", 10 give "(DD) DDDD-DDDD", any other count returns the input unchanged |
| Utils.PhoneLayoutPositions | src/utils/utils.js:6-8 | where each digit and each punctuation mark sits in the formatted number |
| Utils.PhoneLayoutDigits | src/utils/utils.js:6-8 | stripping the punctuation of the layout gives back the digits |
| Utils.PhoneLayoutShape | src/utils/utils.js:6-8 | the layout's length, punctuation and digits together |
| Utils.FormatarTelefoneKeepsDigits | src/utils/utils.js:2-11 | formatting keeps exactly the input's digits |
| Utils.FormatarTelefoneIdempotent | src/utils/utils.js:2-11 | formatting twice equals formatting once |
| Utils.ValidacaoSenha | src/utils/utils.js:14-53 | returns `{valida: true, erros: []}` exactly for a password of at least 8 characters with A-Z, a-z, 0-9 and one of `! @ # * % $`; every other password gives `undefined`, so the `erros.length > 0` branch never runs |
| Utils.EmailShapeMatches | src/utils/utils.js:64 | a string with no whitespace, one '@' after a non-empty part and an inner '.' after it matches the pattern |
| Utils.EmailMatchesShape | src/utils/utils.js:64 | every match of the pattern has that shape |
| Utils.EmailShapeIsRegex | src/utils/utils.js:64 | the shape and the pattern accept the same strings |
| Utils.ValidacaoEmail | src/utils/utils.js:63-74 | always echoes the email; `valido` holds exactly when the pattern matches |
| Utils.ValidarEmails | src/utils/utils.js:174-176 | one result per email, in order, each the result for that email |
| Utils.EmailExampleAccepted | src/utils/utils.js:77 | 'exemplo@dominio.com' is valid |
| Utils.EmailExampleNoDot | src/utils/utils.js:78 | 'exemplo@dominio' is invalid |
| Utils.EmailExampleNoAt | src/utils/utils.js:79 | 'exemplo.com' is invalid |
| Utils.EmailExampleNoLocalPart | src/utils/utils.js:80 | '@dominio.com' is invalid |
| Utils.EmailExampleLeadingDot | src/utils/utils.js:81 | 'exemplo@.com' is invalid |
| Utils.ObterNumeroDia | src/utils/utils.js:95-101 | succeeds exactly for a table name, with a number below 7; otherwise fails with 'Dia da semana inválido' |
| Utils.ObterNumeroDiaBijective | src/utils/utils.js:84-101 | Domingo..Sabado map to 0..6 in order, and distinct names give distinct numbers |
| Utils.GetColorForEspecialidade | src/utils/utils.js:198-212 | a known specialty gets its table colour with white text; anything else gets '#3788d8' with black text |
| Utils.EspecialidadeCoresDistinct | src/utils/utils.js:182-191 | the eight specialties have distinct colours, none of them the default |
| Profile.DigitosMantidos | src/pages/Teacher/Profile/index.jsx:271 | keeps the first `min(n, 11)` digits of the input, in order |
| Profile.MascaraTelefone | src/pages/Teacher/Profile/index.jsx:270-283 | the mask is '' exactly when the input has no digit, and otherwise opens with '(' |
| Profile.DigitsMascarar | src/pages/Teacher/Profile/index.jsx:273-282 | each of the five mask shapes keeps exactly the kept digits |
| Profile.DigitsMascaraTelefone | src/pages/Teacher/Profile/index.jsx:271-282 | stripping the mask gives back the first 11 digits of the input |
| Profile.MascaraTelefoneIdempotente | src/pages/Teacher/Profile/index.jsx:270-283 | masking a masked value changes nothing |
| Profile.MascaraTelefoneCabe | src/pages/Teacher/Profile/index.jsx:271-283 | the mask has at most 15 characters, within the input's 16-character limit |
| Profile.MascaraIgualFormatarTelefone | src/pages/Teacher/Profile/index.jsx:279-282 | for 10 or 11 digits the mask equals the shared phone formatter |
| Profile.AlternarEspecialidade | src/pages/Teacher/Profile/index.jsx:287-297 | the id is flipped in or out, and every other id keeps its membership |
| Profile.AlternarDuasVezes | src/pages/Teacher/Profile/index.jsx:287-297 | toggling the same id twice restores the set |
| Profile.TamanhoOuInclusaoSseDiferentes | src/pages/Teacher/Profile/index.jsx:86-89 | the size-or-inclusion test is exactly set inequality |
| Profile.Alterado | src/pages/Teacher/Profile/index.jsx:83-92 | dirty exactly when the record differs from the loaded one, or, for a professor, the specialty set differs |
| Profile.Endpoints | src/pages/Teacher/Profile/index.jsx:162-177 | defined exactly for PROFESSOR, ADMINISTRADOR and SECRETARIA, with the upload endpoint the profile endpoint plus "/uploadFoto" |
| Profile.EndpointsDistintos | src/pages/Teacher/Profile/index.jsx:162-174 | distinct ids get distinct endpoints |
| Profile.MontarDto | src/pages/Teacher/Profile/index.jsx:210-220 | the name is trimmed, the phone is sent with only its digits, and the specialty ids go only for PROFESSOR; other fields are copied |
| Profile.DtoTelefoneDaMascara | src/pages/Teacher/Profile/index.jsx:213 | a phone typed through the mask is sent as its first 11 digits |
| Profile.Registro | src/pages/Teacher/Profile/index.jsx:65-81 | the record built from the signed-in user: its role is the user's role, a missing user gives the empty record with the default icon, and the phone keeps exactly the user's phone digits |
| Profile.Mesclado | src/pages/Teacher/Profile/index.jsx:234 | the merged user carries the sent phone digits and is otherwise the server's reply |
| Profile.EndpointsDe | src/pages/Teacher/Profile/index.jsx:162-177 | there are endpoints exactly for a signed-in user whose role is PROFESSOR, ADMINISTRADOR or SECRETARIA |
| Profile.RegistroAposSalvar | src/pages/Teacher/Profile/index.jsx:210-235 | when the reply echoes the sent fields, the reloaded record holds the trimmed name, the email, the notification flag, the birth date and the sent phone digits, formatted |
| Profile.ProfileEditor.constructor | src/pages/Teacher/Profile/index.jsx:65-81 | the edited and loaded records both start as the record built from the signed-in user, with no pending image and not dirty |
| Profile.ProfileEditor.AtualizarAlteracao | src/pages/Teacher/Profile/index.jsx:83-92 | the effect stores the dirty test of the current state |
| Profile.ProfileEditor.ToggleSpecialty | src/pages/Teacher/Profile/index.jsx:287-297 | replaces the selection by its toggled copy |
| Profile.ProfileEditor.HandleTelefoneChange | src/pages/Teacher/Profile/index.jsx:270-284 | stores the masked phone; nothing else in the record changes |
| Profile.ProfileEditor.HandleFileChange | src/pages/Teacher/Profile/index.jsx:98-135 | a missing file, a non-image type or a file over 5 MiB changes nothing; an accepted file becomes the pending image, preview and photo |
| Profile.ProfileEditor.CancelChanges | src/pages/Teacher/Profile/index.jsx:137-152 | restores the loaded record (photo included) and, for professors, the loaded specialties; clears the pending image; not dirty afterwards |
| Profile.ProfileEditor.SaveChanges | src/pages/Teacher/Profile/index.jsx:154-268 | nothing when not dirty; a missing user or an unknown role fails; it succeeds exactly when dirty, with a known role and a reply; on success it sends the DTO to the role's endpoint, the signed-in user becomes the reply with the sent phone digits (nobody when the email changed, which asks for a new login), and both records are rebuilt from that user; on failure the records and the user are unchanged; a failed upload still saves the rest |
| Dashboard.DiasDoPeriodo | src/pages/Secretary/Dashboard/index.jsx:59 | a zero period falls back to 30 days; any other period is used as is |
| Dashboard.EndpointPeriodo | src/pages/Secretary/Dashboard/index.jsx:60 | the request goes to the `api/secretarias/qtdUltimosDias/` collection |
| Dashboard.EndpointPeriodoInjetivo | src/pages/Secretary/Dashboard/index.jsx:59-60 | two periods ask the same endpoint exactly when they mean the same number of days |
| Dashboard.SomaTotaisConcat | src/pages/Secretary/Dashboard/index.jsx:87-90 | the total of two lists is the sum of their totals |
| Dashboard.CadaTotalAteOTotal | src/pages/Secretary/Dashboard/index.jsx:87-90 | with non-negative counts, no professor has more sessions than the total |
| Dashboard.Pie | src/pages/Secretary/Dashboard/index.jsx:81-85 | one slice per professor, in the reply's order, with name and value copied |
| Dashboard.SomaPieIgualTotal | src/pages/Secretary/Dashboard/index.jsx:81-91 | the pie's values add up to the total of sessions |
| Dashboard.IndiceMaior | src/pages/Secretary/Dashboard/index.jsx:93-116 | the index the `reduce` ends on holds a maximum, and every later element is strictly smaller: ties go to the later element |
| Dashboard.TraduzirDia | src/pages/Secretary/Dashboard/index.jsx:99-110 | the lower-cased English name is translated from the table, and anything else becomes '' |
| Dashboard.TraduzirDiaExemplos | src/pages/Secretary/Dashboard/index.jsx:99-110 | 'MONDAY' gives 'Segunda-feira' and 'sunday' gives 'Domingo'; a missing name and '-' give '' |
| Dashboard.DiaComMaiorAtendimento | src/pages/Secretary/Dashboard/index.jsx:93-110 | '' without days; otherwise a Portuguese weekday name or '' |
| Dashboard.DiaComMaiorAtendimentoMaximo | src/pages/Secretary/Dashboard/index.jsx:93-110 | the card names the translation of a day with the most sessions, and no later day has as many |
| Dashboard.ProfessorMaisAtendido | src/pages/Secretary/Dashboard/index.jsx:112-140 | '' when there are no professors |
| Dashboard.ProfessorMaisAtendidoMaximo | src/pages/Secretary/Dashboard/index.jsx:112-140 | the card names a professor with the most sessions, and no later professor has as many |
| Dashboard.Inserir | src/pages/Secretary/Dashboard/index.jsx:148-149 | inserting adds exactly one element, keeping all the others |
| Dashboard.InserirDecrescente | src/pages/Secretary/Dashboard/index.jsx:149 | inserting into a list sorted by descending total keeps it sorted |
| Dashboard.Ordenar | src/pages/Secretary/Dashboard/index.jsx:148-149 | the sorted copy of `[...graficoProf]` is a permutation of the reply |
| Dashboard.OrdenarDecrescente | src/pages/Secretary/Dashboard/index.jsx:149 | the sorted copy is in non-increasing order of total |
| Dashboard.InserirEstavel | src/pages/Secretary/Dashboard/index.jsx:149 | the inserted element goes after every element with the same total |
| Dashboard.OrdenarEstavel | src/pages/Secretary/Dashboard/index.jsx:148-149 | the sort is stable: professors with equal totals keep their order from the reply |
| Dashboard.MaioresTres | src/pages/Secretary/Dashboard/index.jsx:148-150 | `min(3, n)` professors, all taken from the reply, in non-increasing order |
| Dashboard.MaioresTresSaoOsMaiores | src/pages/Secretary/Dashboard/index.jsx:148-150 | no professor left out of the top three has more sessions than one in it |
| Dashboard.Top3 | src/pages/Secretary/Dashboard/index.jsx:148-155 | one entry per selected professor, with name and total |
| Dashboard.CartoesKpi | src/pages/Secretary/Dashboard/index.jsx:119-144 | four cards with the fixed titles and colours, in order, holding the given values |
| Dashboard.ValorContagem | src/pages/Secretary/Dashboard/index.jsx:122-128 | '' exactly for zero; a positive count is shown as its decimal digits, which read back as the count |
| Dashboard.EstadoDaResposta | src/pages/Secretary/Dashboard/index.jsx:64-167 | with no data or a failed request: the empty cards, empty lists, total 0 and `hasData` false; otherwise the total, frequencies, pie, top three and the four card values |
| Dashboard.EstadoComDados | src/pages/Secretary/Dashboard/index.jsx:119-156 | with data, the cards keep their titles and colours, the sessions card is empty only for a zero total, and no top-three total exceeds the total |
| Dashboard.Painel.constructor | src/pages/Secretary/Dashboard/index.jsx:13-19 | starts with period 30, no cards and `hasData` true |
| Dashboard.Painel.HandleFilterChange | src/pages/Secretary/Dashboard/index.jsx:50-52 | stores the new period |
| Dashboard.Painel.FetchDashboardData | src/pages/Secretary/Dashboard/index.jsx:54-171 | nothing happens without a user id; otherwise it asks the period's endpoint and shows the state the reply determines |
| Dashboard.Painel.AplicarDados | src/pages/Secretary/Dashboard/index.jsx:79-158 | the setters of the data branch store the frequencies, pie, total, cards and top three |
| Export.RotuloStatus | src/pages/Secretary/GerenciamentoAluno/components/Export.jsx:115 | 'Ativo' exactly for an active student, else 'Inativo' |
| Export.RotuloLimitacoes | src/pages/Secretary/GerenciamentoAluno/components/Export.jsx:116 | 'Sim' exactly with physical limitations, else 'Não' |
| Export.StringDe | src/pages/Secretary/GerenciamentoAluno/components/Export.jsx:114 | JavaScript's `String(v)`: a non-negative age reads back as its number, a negative one opens with '-', a text is itself, null and undefined are spelled out |
| Export.CelulaIdade | src/pages/Secretary/GerenciamentoAluno/components/Export.jsx:114 | the age cell is empty when no age function is supplied; a numeric age gives a non-empty cell that reads back as the age when it is non-negative |
| Export.LinhaPdf | src/pages/Secretary/GerenciamentoAluno/components/Export.jsx:110-117 | six cells; missing name, email and CPF become ''; the status and limitations cells follow the flags |
| Export.TabelaPdf | src/pages/Secretary/GerenciamentoAluno/components/Export.jsx:68-117 | one row per student, in order; a list that is not an array gives no rows |
| Export.TabelaPdfFormato | src/pages/Secretary/GerenciamentoAluno/components/Export.jsx:110-117 | every row has six cells, and its status cell reads 'Ativo' exactly for an active student |
| Export.Idade | src/pages/Secretary/GerenciamentoAluno/components/Export.jsx:198 | without an age function the cell is ''; otherwise it is the function's value, and it prints as the PDF's age cell |
| Export.PlanilhaAlunos | src/pages/Secretary/GerenciamentoAluno/components/Export.jsx:192-201 | one row per student, in order, '#' = position + 1, fields copied, labels following the flags |
| Export.PlanilhaENumeracao | src/pages/Secretary/GerenciamentoAluno/components/Export.jsx:192-201 | the '#' column numbers the rows 1..n without repeats, and the PDF and XLSX agree on age, status and limitations |
| Export.AtivosMaisInativos | src/pages/Secretary/GerenciamentoAluno/components/Export.jsx:223-224 | active plus inactive students make the whole list |
| Export.ComLimitacoesAteTotal | src/pages/Secretary/GerenciamentoAluno/components/Export.jsx:225-228 | students with limitations are at most all students |
| Export.ResumoAlunos | src/pages/Secretary/GerenciamentoAluno/components/Export.jsx:219-230 | Total de Registros is the list length, Ativos + Inativos = Total, and Com Limitações ≤ Total |
| Export.LinhasAtivasContaAtivos | src/pages/Secretary/GerenciamentoAluno/components/Export.jsx:199-223 | rows whose status reads 'Ativo' are as many as the active students |
| Export.ResumoContaLinhas | src/pages/Secretary/GerenciamentoAluno/components/Export.jsx:192-223 | the summary's active count equals the sheet rows whose status reads 'Ativo' |
| Account.Nome | src/components/Account.jsx:33 | the name falls back from `nome` to `name` to 'Usuário', and is never empty |
| Account.RoleRaw | src/components/Account.jsx:34 | a non-empty `role` is the result; otherwise a non-empty `cargo`; '' exactly when both are missing or empty |
| Account.Papel | src/components/Account.jsx:34-42 | '' without a role; otherwise, on the upper-cased role, PROF gives 'Professor(a)', then SECRET gives 'Secretaria', then ADMIN gives 'Administrador'; else the role as written |
| Account.PrimeiraRegra | src/components/Account.jsx:37-40 | first match: no label exactly when no keyword occurs, and otherwise the label of a rule whose keyword occurs and before which no keyword occurs |
| Account.PapelPorRegras | src/components/Account.jsx:34-42 | the role label is the PROF, SECRET, ADMIN rule table applied to the upper-cased role, falling back to the role as written, and '' without a role |
| Account.PapelExemplos | src/components/Account.jsx:34-42 | 'prof' gives 'Professor(a)'; PROF wins over SECRET and SECRET over ADMIN; `cargo` is read only when `role` is empty; a missing user gives '' |
| Account.Alternado | src/components/Account.jsx:15-25 | flips the flag; stores 'dark' exactly when the new value is on (else 'light'); the class follows the flag |
| Account.AlternarDuasVezes | src/components/Account.jsx:15-25 | toggling twice restores a synchronised state |
| Account.MenuConta.constructor | src/components/Account.jsx:11-27 | menu and modal closed; dark mode on exactly when the stored theme is 'dark' |
| Account.MenuConta.ToggleModoEscuro | src/components/Account.jsx:15-25 | the new flag, stored theme and class are the toggled state |
| Account.MenuConta.ToggleMenu | src/components/Account.jsx:46 | the avatar button opens or closes the menu |
| Account.MenuConta.OpenAdminModal | src/components/Account.jsx:28-31 | closes the menu and opens the admin modal |
| Account.MenuConta.FecharMenu | src/components/Account.jsx:91 | a click on the backdrop closes the menu |
| Account.MenuConta.FecharModal | src/components/Account.jsx:184 | the modal's close handler closes it |
| Text.Digits | src/utils/utils.js:4 | `replace(/\D/g, '')` leaves only digits and never lengthens the text |
| Text.DigitsIdempotent | src/utils/utils.js:4 | stripping twice equals stripping once |
| Text.TrimEmptyIffBlank | src/pages/Secretary/RegisterStudent/index.jsx:155 | `trim()` is empty exactly when every character is whitespace |
| Text.ParseNatToString | src/pages/Secretary/Dashboard/index.jsx:122 | a count's decimal text reads back as the count |
| Text.IntToStringInjective | src/pages/Secretary/Dashboard/index.jsx:60 | distinct numbers have distinct decimal texts |

## Left out

- Network I/O: the API calls, the postal-code lookup, the photo upload and the dashboard request. Each reply is a parameter, and `None` or a failure flag stands for a failed request.
- Overlapping postal-code lookups and `await` ordering. These are concurrency concerns.
- Dialogs, navigation, console output, rendering and styling, and object URLs. The object URL is a parameter.
- `localStorage` and the document's class list. The account menu keeps the stored theme and the class as two plain fields. The profile save takes the token as a parameter.
- Birth-date arithmetic. Dates are whole day numbers, and the parsed birth date is a parameter; `None` means an unparseable date, which every comparison lets through. The 120-year bound is 43830 days, rather than the source's 365.25-day float years over millisecond differences.
- `formatarData` and `formatarHora`. They wrap date libraries.
- The top-3 `percentual`. It is a float rounded with `Math.round`.
- PDF and XLSX generation: jsPDF, autotable, the XLSX writer, page layout, footers, the column widths and the generation date row. The download dialog is also out.
- The profile effect that fetches the specialty list and, for a professor, reloads the selected and loaded specialties from the signed-in user: it waits on the network. After a save the model keeps the specialties as saved, where the code reloads them from the server's reply.
- The order of `especialidadeIds`, which follows Set insertion order. The model sends a set.
- Case mapping is ASCII only, and lengths count characters, not UTF-16 code units.
- Table lookups ignore JavaScript prototype keys such as 'constructor'.
- Values are typed. Phone numbers and birth dates are strings, the role is a string (so `toString()` is the identity) and status flags are booleans.
- Error-map keys are an enumeration of the field names rather than strings.
- The `calculateAge` function the report receives comes from its caller and is not part of this model. It is a parameter whose value may be a number, a text, null or undefined. A supplied function that returns '' therefore gives an empty age cell too.
- The wizard's `cancelarCadastro` resets the three records and leaves the step and the error map as they are (src/pages/Secretary/RegisterStudent/index.jsx:248-273); the navigation that follows is left out with the other navigation.
- Dashboard.FetchDashboardData: an exception thrown part-way through the data branch is modelled as a failed request (`None`). Its catch branch resets every field the branch had set, so the end state is the same.
- Login, the profile viewer and the login background. They are not part of this model.
