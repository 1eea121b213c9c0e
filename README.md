# A em Foco: a verified model of the finance dashboard's core logic

This project models the logic layer of a personal-finance dashboard. The dashboard is a React/TypeScript application backed by Supabase and Stripe.

**The pages.** Each page keeps one list of records in page state, appends new records and replaces or removes records by id:
- debts (`Dividas`);
- savings goals (`MuralSonhos`);
- credit cards (`CartoesCredito`);
- income (`Ganhos`).

The pages also derive figures from their lists:
- totals;
- the debt payoff orderings (snowball and avalanche);
- the payoff simulation;
- the months-to-goal estimate;
- credit-utilisation bands;
- monthly and yearly income;
- per-kind investment slices.

The bills (`ContasFixas`) and investments (`Investimentos`) pages build a payload and pass it to their hook.

**The hooks.** Each backend-wired hook (`use*`) keeps a list and a `loading` flag. Its operations work as follows:
- fetch replaces the list;
- add prepends the stored row;
- update merges a partial record into the entries with the id;
- delete filters the id out;
- for bills, a status toggle flips between `pago` and `pendente`.

Validation guards (the allowed investment kinds, the income category normalisation) are part of these operations. So are the default and null rules of their payloads.

**The dashboard.** `useFinancialData` reduces six filtered queries to a `FinancialSummary`, bounded below by the first day of the current month. `Index` derives the balance and its sign from that summary.

**The guards and the payment check.**
- `AuthGuard` decides the login redirect.
- `SubscriptionGuard` decides what to render.
- The `check-payment` edge function decides whether a user is subscribed from their Stripe checkout sessions. It then builds the subscriber row and the HTTP response.

**How the program becomes Dafny.**
- Money is an integer number of cents. Rates are integer basis points: a source rate of 5 (%) is 500.
- Ratios and percentages are `real`.
- JavaScript's `Math.ceil`/`Math.floor`/`%` and its non-finite results of a division by 0 are written out in `JsNumbers`.
- A backend call becomes two parameters: the signed-in user (`Option<User>`) and the call's outcome (`Result`).
- A state-changing method returns the request it would send and states the new list for both outcomes.
- Components and hooks whose fields change become classes with `seq` fields. The derived figures become functions, with lemmas about them.

## Model

| member | source | states |
|---|---|---|
| DividasPage.TipoInfo | src/pages/Dividas.tsx:40-45 | each known debt kind gets its icon and colour; `emprestimo` and any unknown kind get the `emprestimo` pair |
| DividasPage.TotalDividas | src/pages/Dividas.tsx:87 | 0 for no debts; with no negative balance, the total is at least every single balance |
| DividasPage.AltoRisco | src/pages/Dividas.tsx:89 | the high-risk count never exceeds the debts, and is 0 exactly when no rate is above 5% |
| DividasPage.MediaJuros | src/pages/Dividas.tsx:88 | 0 for no debts, otherwise the mean rate (mean × count = sum of rates) |
| DividasPage.AltoRiscoCounts | src/pages/Dividas.tsx:89 | a debt adds one to the high-risk count exactly when its rate is above 5%; the count never exceeds the list length |
| DividasPage.BolaDeNeve | src/pages/Dividas.tsx:164-166 | the snowball order is a permutation of the debts, non-decreasing by balance |
| DividasPage.Avalanche | src/pages/Dividas.tsx:168-170 | the avalanche order is a permutation of the debts, non-increasing by rate |
| DividasPage.BolaDeNeveStable | src/pages/Dividas.tsx:164-166 | debts with equal balances keep their list order (the engine's sort is stable) |
| DividasPage.AvalancheStable | src/pages/Dividas.tsx:168-170 | debts with equal rates keep their list order |
| DividasPage.OrdemEstrategia | src/pages/Dividas.tsx:552 | the list shown for either strategy is a permutation of the debts |
| DividasPage.StrategiesKeepTotal | src/pages/Dividas.tsx:87-170 | the snowball and avalanche lists owe the same total as the debt list |
| DividasPage.MesesParaQuitarIsLeast | src/pages/Dividas.tsx:172-177 | for a positive payment, the months to pay off are the least m with m × payment ≥ the total balance |
| DividasPage.MesesParaQuitar | src/pages/Dividas.tsx:172-177 | a positive payment gives a finite count m with (m − 1) × payment < total ≤ m × payment; a zero payment gives +∞ for a positive total and NaN for none |
| DividasPage.NovaDivida | src/pages/Dividas.tsx:103-116 | the new debt carries the form's fields, the given id, a blank rate as 0, and the kind's icon and colour |
| DividasPage.EditRoundTrip | src/pages/Dividas.tsx:136-147 | opening a debt in the dialog and saving it unchanged gives back the same debt |
| DividasPage.DividasScreen.constructor | src/pages/Dividas.tsx:49-86 | the page starts with its initial list, an empty form, nothing being edited and the dialog closed |
| DividasPage.DividasScreen.Submit | src/pages/Dividas.tsx:91-134 | a missing required field changes nothing; an edit replaces the entries with the edited id and keeps that id; a new debt is appended; the dialog is reset |
| DividasPage.DividasScreen.StartEdit | src/pages/Dividas.tsx:136-147 | the dialog opens on the debt's fields and the list is unchanged |
| DividasPage.DividasScreen.Delete | src/pages/Dividas.tsx:149-150 | every debt with the id is removed and the others keep their order |
| MuralPage.CategoriaInfo | src/pages/MuralSonhos.tsx:33-38 | each known goal category gets its icon and colour; any other category gets the `outros` pair |
| MuralPage.TotalSonhos | src/pages/MuralSonhos.tsx:86 | 0 for no goals; with no negative target, the total is at least every target |
| MuralPage.TotalEconomizado | src/pages/MuralSonhos.tsx:87 | 0 for no goals; with no negative saving, the total is at least every saving |
| MuralPage.TotalInvestimentoMensal | src/pages/MuralSonhos.tsx:88 | 0 for no goals; with no negative contribution, the total is at least every contribution |
| MuralPage.ProgressoGeral | src/pages/MuralSonhos.tsx:86-89 | overall progress is 0 unless the target total is positive, and otherwise saved × 100 / target |
| MuralPage.ProgressoGeralBounded | src/pages/MuralSonhos.tsx:89 | while savings lie between 0 and the target total, progress lies between 0 and 100 |
| MuralPage.Tempo | src/pages/MuralSonhos.tsx:91-97 | there is no estimate exactly when the monthly contribution is not positive |
| MuralPage.TempoCoversRemaining | src/pages/MuralSonhos.tsx:91-97 | for a goal not yet reached, years × 12 + months is the least month count whose contributions cover what is left, with 0 ≤ months < 12 |
| MuralPage.TempoWhenReached | src/pages/MuralSonhos.tsx:91-101 | for a reached goal both figures are not positive and only the month figure is shown |
| MuralPage.Render | src/pages/MuralSonhos.tsx:93-101 | "∞" exactly for no estimate; "Xa Ym" when there is at least one year, otherwise "Ym" |
| MuralPage.CalcularTempoRestante | src/pages/MuralSonhos.tsx:91-101 | "∞" exactly when the contribution is not positive; otherwise a text ending in "m", and "0m" for a goal saved exactly to its target |
| MuralPage.OverfundedGoalCounterexample | src/pages/MuralSonhos.tsx:91-101 | a goal saved 1500 past its target at 100 a month shows "-3m", and -2 years and -3 months do not add up to its -15 months |
| MuralPage.TempoCorrigido | src/pages/MuralSonhos.tsx:91-97 | with what is left clamped at 0, there is still no estimate exactly when the contribution is not positive |
| MuralPage.TempoCorrigidoSound | src/pages/MuralSonhos.tsx:91-101 | the clamped estimate is the least non-negative month count covering what is left, split into years and fewer than 12 months; a reached goal shows "0m"; for goals not yet reached it agrees with the original |
| MuralPage.NovoSonho | src/pages/MuralSonhos.tsx:107-127 | the new goal carries the form's fields; blank savings and contribution become 0; the category's icon and colour are applied |
| MuralPage.EditRoundTrip | src/pages/MuralSonhos.tsx:148-158 | opening a goal in the dialog and saving it unchanged gives back the same goal |
| MuralPage.SonhosScreen.constructor | src/pages/MuralSonhos.tsx:42-82 | the page starts with its initial list and a closed, empty dialog |
| MuralPage.SonhosScreen.Submit | src/pages/MuralSonhos.tsx:104-146 | a missing name, target or category changes nothing; an edit replaces by id and keeps the id; a new goal is appended; the dialog is reset |
| MuralPage.SonhosScreen.StartEdit | src/pages/MuralSonhos.tsx:148-158 | the dialog opens on the goal's fields and the list is unchanged |
| MuralPage.SonhosScreen.Delete | src/pages/MuralSonhos.tsx:160-161 | every goal with the id is removed and the others keep their order |
| CartoesPage.BancoCor | src/pages/CartoesCredito.tsx:31-40 | an unknown bank gets the `outros` colour |
| CartoesPage.BancoNome | src/pages/CartoesCredito.tsx:151-163 | an unknown bank key is shown as itself; a known one gets a non-empty display name |
| CartoesPage.TotalLimites | src/pages/CartoesCredito.tsx:80 | 0 for no cards; with no negative limit, the total is at least every limit |
| CartoesPage.TotalFaturas | src/pages/CartoesCredito.tsx:81 | 0 for no cards; with no negative bill, the total is at least every bill |
| CartoesPage.LimiteDisponivel | src/pages/CartoesCredito.tsx:80-82 | total limits minus total bills equals the sum of each card's available limit |
| CartoesPage.Utilizacao | src/pages/CartoesCredito.tsx:83 | the percentage is finite exactly when the divisor is non-zero (percentage × limit = 100 × bill); a zero divisor gives an infinity or NaN as in JavaScript |
| CartoesPage.PercentualUtilizacao | src/pages/CartoesCredito.tsx:83 | finite exactly when the total limit is non-zero, and then percentage × total limit = 100 × total bills; NaN for no cards |
| CartoesPage.UtilizacaoCartao | src/pages/CartoesCredito.tsx:373 | finite exactly when the card's limit is non-zero (percentage × limit = 100 × bill); a zero limit gives +∞ for a positive bill and NaN for none |
| CartoesPage.UtilizacaoStatus | src/pages/CartoesCredito.tsx:165-169 | 'Bom' below 30, 'Atenção' from 30 below 60, 'Alto' from 60; NaN and +∞ fall through to 'Alto', −∞ is 'Bom' |
| CartoesPage.StatusColor | src/pages/CartoesCredito.tsx:165-169 | each band has its own text colour: green exactly for 'Bom', yellow exactly for 'Atenção', red exactly for 'Alto' |
| CartoesPage.UtilizacaoColor | src/pages/CartoesCredito.tsx:165-169 | a finite utilisation is shown green exactly below 30%, yellow exactly from 30% below 60% and red exactly from 60% |
| CartoesPage.PercentBelow | src/pages/CartoesCredito.tsx:83 | comparing the percentage with a threshold is comparing 100 × part with threshold × whole |
| CartoesPage.CardStatusByThresholds | src/pages/CartoesCredito.tsx:165-169 | for a positive limit a card is 'Bom' iff 100 × bill < 30 × limit, and 'Alto' iff 100 × bill ≥ 60 × limit |
| CartoesPage.StatusMonotone | src/pages/CartoesCredito.tsx:165-169 | a higher utilisation never gives a better band |
| CartoesPage.NovoCartao | src/pages/CartoesCredito.tsx:97-104 | the new card carries the form's fields and the bank's colour |
| CartoesPage.EditRoundTrip | src/pages/CartoesCredito.tsx:125-134 | opening a card in the dialog and saving it unchanged gives back the same card |
| CartoesPage.CartoesScreen.constructor | src/pages/CartoesCredito.tsx:44-78 | the page starts with its initial list and a closed, empty dialog |
| CartoesPage.CartoesScreen.Submit | src/pages/CartoesCredito.tsx:85-123 | a missing field changes nothing; an edit replaces by id and keeps the id; a new card is appended; the dialog is reset |
| CartoesPage.CartoesScreen.StartEdit | src/pages/CartoesCredito.tsx:125-134 | the dialog opens on the card's fields and the list is unchanged |
| CartoesPage.CartoesScreen.Delete | src/pages/CartoesCredito.tsx:136-137 | every card with the id is removed and the others keep their order |
| GanhosPage.CategoriaIcone | src/pages/Ganhos.tsx:34-39 | each known income category gets its icon; any other gets DollarSign |
| GanhosPage.Mensal | src/pages/Ganhos.tsx:92-97 | a monthly entry adds its amount, a weekly one four times its amount, any other nothing |
| GanhosPage.TotalMensal | src/pages/Ganhos.tsx:92-97 | 0 when every entry is one-off; not negative when no amount is |
| GanhosPage.TotalAnual | src/pages/Ganhos.tsx:98 | twelve times the sum of the monthly entries and four times the weekly entries, that is 12 × (monthly + 4 × weekly) |
| GanhosPage.GanhosMensais | src/pages/Ganhos.tsx:99 | exactly the monthly entries, taken from the list |
| GanhosPage.GanhosExtras | src/pages/Ganhos.tsx:100 | exactly the one-off entries, taken from the list |
| GanhosPage.MensaisOrder | src/pages/Ganhos.tsx:99 | the monthly entries are an order-preserving sub-list: a single entry is kept iff it is monthly, and the selection of a concatenation is the concatenation of the selections |
| GanhosPage.ExtrasOrder | src/pages/Ganhos.tsx:100 | the one-off entries are an order-preserving sub-list: a single entry is kept iff it is one-off, and the selection of a concatenation is the concatenation of the selections |
| GanhosPage.TotalMensalByFrequency | src/pages/Ganhos.tsx:92-97 | the monthly total is the monthly entries plus four times the weekly entries |
| GanhosPage.UnicaLeavesTotals | src/pages/Ganhos.tsx:92-98 | adding a one-off entry changes neither the monthly nor the yearly total |
| GanhosPage.MensaisExtrasDisjoint | src/pages/Ganhos.tsx:99-100 | no entry is both monthly and one-off, and together they are no more than the list |
| GanhosPage.NovoGanho | src/pages/Ganhos.tsx:114-122 | the new income carries the form's fields and the category's icon |
| GanhosPage.EditRoundTrip | src/pages/Ganhos.tsx:143-153 | opening an income in the dialog and saving it unchanged gives back the same income |
| GanhosPage.GanhosScreen.constructor | src/pages/Ganhos.tsx:52-90 | the page starts with its initial list and a closed, empty dialog |
| GanhosPage.GanhosScreen.Submit | src/pages/Ganhos.tsx:102-141 | a missing field changes nothing; an edit replaces by id and keeps the id; a new income is appended; the dialog is reset |
| GanhosPage.GanhosScreen.StartEdit | src/pages/Ganhos.tsx:143-153 | the dialog opens on the income's fields and the list is unchanged |
| GanhosPage.GanhosScreen.Delete | src/pages/Ganhos.tsx:155-156 | every income with the id is removed and the others keep their order |
| ContasPage.Pendentes | src/pages/ContasFixas.tsx:53 | exactly the pending bills of the list |
| ContasPage.Pagas | src/pages/ContasFixas.tsx:54 | exactly the paid bills of the list |
| ContasPage.PendentesOrder | src/pages/ContasFixas.tsx:53 | the pending bills are an order-preserving sub-list: a single bill is kept iff it is pending, and the selection of a concatenation is the concatenation of the selections |
| ContasPage.PagasOrder | src/pages/ContasFixas.tsx:54 | the paid bills are an order-preserving sub-list: a single bill is kept iff it is paid, and the selection of a concatenation is the concatenation of the selections |
| ContasPage.TotalContasFixas | src/pages/ContasFixas.tsx:52 | 0 for no bills; with no negative amount, the total is at least every bill, whatever its status |
| ContasPage.PendentesPagasPartition | src/pages/ContasFixas.tsx:52-54 | when every status is pending or paid, the two lists split the bills: their sizes and their sums add up to the count and to the total |
| ContasPage.NovaContaOf | src/pages/ContasFixas.tsx:63-69 | the new bill carries the form's fields with status 'pendente' |
| ContasPage.PatchOf | src/pages/ContasFixas.tsx:63-72 | the edit sends every form field and status 'pendente', never an id |
| ContasPage.EditedBillIsPending | src/pages/ContasFixas.tsx:63-72 | saving an edited bill keeps its id and makes it pending, whatever its status was |
| ContasPage.ContasScreen.constructor | src/pages/ContasFixas.tsx:43-50 | the page is bound to the bills hook, with a closed, empty dialog |
| ContasPage.ContasScreen.Submit | src/pages/ContasFixas.tsx:56-80 | a missing field sends nothing; editing sends an update for the edited id, otherwise an insert; the hook's list changes as that call's outcome says; the dialog is reset |
| ContasPage.ContasScreen.StartEdit | src/pages/ContasFixas.tsx:82-91 | the dialog opens on the bill's fields |
| ContasPage.ContasScreen.Delete | src/pages/ContasFixas.tsx:93-95 | deleting goes through the hook: removed on success, unchanged otherwise |
| InvestimentosPage.CategoriaInfo | src/pages/Investimentos.tsx:25-30 | each known kind gets its icon and colour; any other kind gets the 'Renda Fixa' pair |
| InvestimentosPage.TotalInvestido | src/pages/Investimentos.tsx:59 | 0 for no investments; with no negative amount, the total is at least every amount |
| InvestimentosPage.Accumulate | src/pages/Investimentos.tsx:64-73 | one step keeps every slice and adds at most one |
| InvestimentosPage.Distribuicao | src/pages/Investimentos.tsx:63-76 | the reduce as a left fold of Accumulate; what it computes is stated by DistribuicaoSize, DistribuicaoSlices, DistribuicaoValores and DistribuicaoTotal |
| InvestimentosPage.DistribuicaoSize | src/pages/Investimentos.tsx:63-76 | no more slices than investments, and at least one for a non-empty list |
| InvestimentosPage.DistribuicaoData | src/pages/Investimentos.tsx:63-76 | the loop computes the group-by that `Distribuicao` specifies |
| InvestimentosPage.DistribuicaoStep | src/pages/Investimentos.tsx:63-76 | the group-by of a list plus one investment is the group-by of the list with that investment folded in |
| InvestimentosPage.FirstOfAppend | src/pages/Investimentos.tsx:63-76 | appending never moves a kind's first appearance |
| InvestimentosPage.AccumulateFound | src/pages/Investimentos.tsx:64-67 | folding in an investment of a kind that already has a slice keeps one slice per kind, in first-appearance order |
| InvestimentosPage.AccumulatePushed | src/pages/Investimentos.tsx:68-73 | folding in an investment of a new kind adds its slice last and keeps one slice per kind, in first-appearance order |
| InvestimentosPage.DistribuicaoSlices | src/pages/Investimentos.tsx:63-76 | the distribution has exactly one slice per kind present, in first-appearance order |
| InvestimentosPage.TotalDoTipoAppend | src/pages/Investimentos.tsx:63-76 | a kind's total grows by an appended investment's amount exactly when it is of that kind |
| InvestimentosPage.AccumulateValores | src/pages/Investimentos.tsx:64-73 | folding in one investment keeps every slice's value equal to its kind's total |
| InvestimentosPage.DistribuicaoValores | src/pages/Investimentos.tsx:63-76 | each slice's value is the total invested in its kind |
| InvestimentosPage.AccumulateTotal | src/pages/Investimentos.tsx:64-73 | folding in one investment adds its amount to the sum of the slices |
| InvestimentosPage.DistribuicaoTotal | src/pages/Investimentos.tsx:59-76 | the slices sum to the total invested |
| InvestimentosPage.DistribuicaoCores | src/pages/Investimentos.tsx:63-76 | each slice has its kind's colour, and an unknown kind gets the fallback colour |
| InvestimentosPage.Rentabilidade | src/pages/Investimentos.tsx:87 | a blank expected return becomes null, an entered one is kept |
| InvestimentosPage.NovoOf | src/pages/Investimentos.tsx:84-90 | the new investment carries the form's fields; an empty date becomes today; the other optional fields are absent |
| InvestimentosPage.PatchOf | src/pages/Investimentos.tsx:84-94 | the edit carries the same fields as an insert and never an id |
| InvestimentosPage.EditRoundTrip | src/pages/Investimentos.tsx:104-114 | for an investment with a name, a kind and a non-empty date (an empty date would come back as today) whose expected return is not 0, opening it in the dialog and saving it unchanged gives back the same investment |
| InvestimentosPage.EditDropsZeroReturn | src/pages/Investimentos.tsx:104-114 | saving an investment whose expected return is 0 clears that return to null |
| InvestimentosPage.InvestimentosScreen.constructor | src/pages/Investimentos.tsx:49-57 | the page is bound to the investments hook, with a closed, empty dialog |
| InvestimentosPage.InvestimentosScreen.Submit | src/pages/Investimentos.tsx:78-102 | a missing field sends nothing; editing sends an update for the edited id, otherwise an insert; with no user, or a kind the hook's guard refuses, nothing is sent and the list is unchanged; otherwise the hook's list changes as the call's outcome says; the dialog is reset |
| InvestimentosPage.InvestimentosScreen.StartEdit | src/pages/Investimentos.tsx:104-114 | the dialog opens on the investment's fields |
| InvestimentosPage.InvestimentosScreen.Delete | src/pages/Investimentos.tsx:116-118 | deleting goes through the hook: removed on success, unchanged otherwise |
| CartoesHook.Merge | src/hooks/useCartoesCredito.tsx:109-111 | for every field, a key absent from the partial keeps the card's value and a present key wins; an empty partial changes nothing |
| CartoesHook.MergeIdempotent | src/hooks/useCartoesCredito.tsx:109-111 | merging the same partial twice equals merging it once |
| CartoesHook.CartoesStore.constructor | src/hooks/useCartoesCredito.tsx:20-21 | no cards, loading |
| CartoesHook.CartoesStore.Fetch | src/hooks/useCartoesCredito.tsx:23-52 | with a user and a successful query the list is the returned rows (none for null); otherwise unchanged; loading ends |
| CartoesHook.CartoesStore.Add | src/hooks/useCartoesCredito.tsx:54-87 | with a user the card is sent with the user's id; on success the stored row is prepended; otherwise nothing changes |
| CartoesHook.CartoesStore.Update | src/hooks/useCartoesCredito.tsx:89-120 | with a user the partial is sent; on success it is merged into the entries with the id only |
| CartoesHook.CartoesStore.Delete | src/hooks/useCartoesCredito.tsx:122-150 | with a user the delete is sent; on success every entry with the id is removed |
| ContasHook.Format | src/hooks/useContasFixas.tsx:45-52 | a fetched row keeps its fields, and a null or empty category becomes 'outros' |
| ContasHook.InsertPayload | src/hooks/useContasFixas.tsx:67-75 | the insert carries the user's id, name, amount, due day and status |
| ContasHook.UpdatePayload | src/hooks/useContasFixas.tsx:119-127 | the update carries exactly the name, amount, due day and status of the partial |
| ContasHook.Merge | src/hooks/useContasFixas.tsx:139-141 | for every field, a key absent from the partial keeps the bill's value and a present key wins |
| ContasHook.StatusPatch | src/hooks/useContasFixas.tsx:197 | the toggle's partial sets the status and, merged into any bill, changes nothing else |
| ContasHook.NextStatus | src/hooks/useContasFixas.tsx:196 | 'pendente' exactly for a paid bill, 'pago' for any other status |
| ContasHook.NextStatusTwice | src/hooks/useContasFixas.tsx:196 | toggling a paid or pending status twice restores it |
| ContasHook.Toggled | src/hooks/useContasFixas.tsx:192-198 | toggling an absent id changes nothing, and the length never changes |
| ContasHook.ToggleTwiceRestores | src/hooks/useContasFixas.tsx:192-198 | with distinct ids and paid/pending statuses, toggling a bill twice restores the list |
| ContasHook.ContasStore.constructor | src/hooks/useContasFixas.tsx:19-20 | no bills, loading |
| ContasHook.ContasStore.Fetch | src/hooks/useContasFixas.tsx:22-60 | with a user and a successful query the list is the formatted rows; otherwise unchanged; loading ends |
| ContasHook.ContasStore.Add | src/hooks/useContasFixas.tsx:62-112 | with a user the insert is sent; on success the formatted row is prepended; otherwise nothing changes |
| ContasHook.ContasStore.Update | src/hooks/useContasFixas.tsx:114-155 | with a user the update is sent; on success the partial is merged into the entries with the id only |
| ContasHook.ContasStore.Delete | src/hooks/useContasFixas.tsx:157-190 | with a user the delete is sent; on success every entry with the id is removed |
| ContasHook.ContasStore.Toggle | src/hooks/useContasFixas.tsx:192-198 | an absent id sends nothing; otherwise the flipped status is sent and, on success, that bill's status flips |
| DividasHook.InsertPayload | src/hooks/useDividas.tsx:57-78 | the insert carries the user's id; the remaining balance is never sent; the paid amount is sent as given; only the status defaults, to 'ativa' when empty; a falsy rate, due date or note is null and a truthy one is sent as given |
| DividasHook.Updates | src/hooks/useDividas.tsx:113-125 | the update carries only the fields the partial defines; a falsy rate, due date or note becomes null (a blank note exactly becomes null) and a truthy one is sent as given |
| DividasHook.Merge | src/hooks/useDividas.tsx:145-147 | for every field of the update, an absent key keeps the debt's value and a present key wins (a null included); the id and the remaining balance never change |
| DividasHook.UpdateKeepsIdsAndBalances | src/hooks/useDividas.tsx:109-161 | an update keeps the length, every id and every remaining balance |
| DividasHook.DividasStore.constructor | src/hooks/useDividas.tsx:23-24 | no debts, loading |
| DividasHook.DividasStore.Fetch | src/hooks/useDividas.tsx:26-55 | with a user and a successful query the list is the returned rows; otherwise unchanged; loading ends |
| DividasHook.DividasStore.Add | src/hooks/useDividas.tsx:57-107 | with a user the insert is sent; on success the stored row is prepended; otherwise nothing changes |
| DividasHook.DividasStore.Update | src/hooks/useDividas.tsx:109-161 | with a user the update is sent; on success it is merged into the entries with the id only |
| DividasHook.DividasStore.Delete | src/hooks/useDividas.tsx:163-191 | with a user the delete is sent; on success every entry with the id is removed |
| GanhosHook.NormalizeCategoria | src/hooks/useGanhos.tsx:58-62 | a category word (salario, freelance, investimento, extra) becomes null; anything else passes through |
| GanhosHook.NormalizeIdempotent | src/hooks/useGanhos.tsx:58-62 | normalising twice equals normalising once |
| GanhosHook.InsertPayload | src/hooks/useGanhos.tsx:54-70 | the insert carries the user's id, the normalised category and the other fields unchanged |
| GanhosHook.Normalized | src/hooks/useGanhos.tsx:105-109 | an update normalises the category when it is present and leaves every other field as given |
| GanhosHook.Merge | src/hooks/useGanhos.tsx:127-129 | for every field, a key absent from the partial keeps the income's value and a present key wins |
| GanhosHook.MergedCategoryNormalized | src/hooks/useGanhos.tsx:105-129 | after an update that sets the category, the local entry never holds a category word |
| GanhosHook.GanhosStore.constructor | src/hooks/useGanhos.tsx:20-21 | no income, loading |
| GanhosHook.GanhosStore.Fetch | src/hooks/useGanhos.tsx:23-52 | with a user and a successful query the list is the returned rows; otherwise unchanged; loading ends |
| GanhosHook.GanhosStore.Add | src/hooks/useGanhos.tsx:54-98 | with a user the normalised insert is sent; on success the stored row is prepended |
| GanhosHook.GanhosStore.Update | src/hooks/useGanhos.tsx:100-138 | with a user the normalised partial is sent; on success it is merged into the entries with the id only |
| GanhosHook.GanhosStore.Delete | src/hooks/useGanhos.tsx:140-168 | with a user the delete is sent; on success every entry with the id is removed |
| InvestimentosHook.GuardsAgree | src/hooks/useInvestimentos.tsx:68-137 | for a non-empty kind, add and update accept the same kinds; only update accepts an empty kind |
| InvestimentosHook.AddAccepts | src/hooks/useInvestimentos.tsx:68 | the add guard: the kind is one of the allowed four (related to the update guard by GuardsAgree) |
| InvestimentosHook.UpdateAccepts | src/hooks/useInvestimentos.tsx:130 | the update guard: only a given, non-empty, disallowed kind is refused |
| InvestimentosHook.InsertPayload | src/hooks/useInvestimentos.tsx:76-95 | the insert carries the user's id and the fields; each falsy optional field becomes null and each truthy one carries the value given |
| InvestimentosHook.Updates | src/hooks/useInvestimentos.tsx:141-154 | the update carries only the fields the partial defines; falsy expected return, current value, maturity or note become null |
| InvestimentosHook.Merge | src/hooks/useInvestimentos.tsx:174-176 | for every field of the update, an absent key keeps the investment's value and a present key wins (a null included); the id never changes |
| InvestimentosHook.AcceptedUpdateKeepsKindsAllowed | src/hooks/useInvestimentos.tsx:130-137 | an accepted update never gives an entry a kind outside the allowed list |
| InvestimentosHook.InvestimentosStore.constructor | src/hooks/useInvestimentos.tsx:30-31 | no investments, loading |
| InvestimentosHook.InvestimentosStore.Fetch | src/hooks/useInvestimentos.tsx:33-62 | with a user and a successful query the list is the returned rows; otherwise unchanged; loading ends |
| InvestimentosHook.InvestimentosStore.Add | src/hooks/useInvestimentos.tsx:64-124 | a kind outside the allowed list, or no user, sends nothing and changes nothing; on success the stored row is prepended |
| InvestimentosHook.InvestimentosStore.Update | src/hooks/useInvestimentos.tsx:126-190 | a kind given and not allowed, or no user, sends nothing; on success the update is merged into the entries with the id only |
| InvestimentosHook.InvestimentosStore.Delete | src/hooks/useInvestimentos.tsx:192-220 | with a user the delete is sent; on success every entry with the id is removed |
| MuralHook.Merge | src/hooks/useMuralSonhos.tsx:112-114 | for every field, a key absent from the partial keeps the goal's value and a present key wins; an empty partial changes nothing |
| MuralHook.MergeIdempotent | src/hooks/useMuralSonhos.tsx:112-114 | merging the same partial twice equals merging it once |
| MuralHook.SonhosStore.constructor | src/hooks/useMuralSonhos.tsx:23 | no goals |
| MuralHook.SonhosStore.Add | src/hooks/useMuralSonhos.tsx:57-90 | with a user the goal is sent with the user's id; on success the stored row is prepended |
| MuralHook.SonhosStore.Update | src/hooks/useMuralSonhos.tsx:92-123 | with a user the partial is sent; on success it is merged into the entries with the id only |
| MuralHook.SonhosStore.Delete | src/hooks/useMuralSonhos.tsx:125-153 | with a user the delete is sent; on success every entry with the id is removed |
| FinancialData.MonthBound | src/hooks/useFinancialData.tsx:35-42 | the income bound ends in "-01" |
| FinancialData.ParseDate | src/hooks/useFinancialData.tsx:42 | only a `YYYY-MM-DD` string reads as a date |
| FinancialData.ParseDateParts | src/hooks/useFinancialData.tsx:42 | a four-digit year, two-digit month and two-digit day joined by dashes read back as those numbers |
| FinancialData.MonthBoundShape | src/hooks/useFinancialData.tsx:35-42 | the bound is the year, a dash, the 1-based month padded to two digits, and "-01" |
| FinancialData.MonthBoundParses | src/hooks/useFinancialData.tsx:35-42 | for a four-digit year the bound is the first day of the current month |
| FinancialData.SinceFirstOfMonth | src/hooks/useFinancialData.tsx:42 | a date is on or after the first of a month exactly when it falls in that month or later |
| FinancialData.Restante | src/hooks/useFinancialData.tsx:81 | a missing remaining balance counts as 0 |
| FinancialData.Aplicado | src/hooks/useFinancialData.tsx:82 | the current value when truthy, otherwise the invested amount, so a current value of 0 falls back |
| FinancialData.Select | src/hooks/useFinancialData.tsx:38-76 | a query keeps exactly the rows passing its filter, and absent data stays absent |
| FinancialData.Query | src/hooks/useFinancialData.tsx:38-76 | each query returns data exactly when its table did, keeping only its own rows that pass its filter (income since the bound, pending bills, active debts, active cards, active goals); investments unfiltered; an unreadable bound fails the income query |
| FinancialData.SumOr0 | src/hooks/useFinancialData.tsx:79-82 | a column sum, and 0 for absent data |
| FinancialData.CountOr0 | src/hooks/useFinancialData.tsx:83-84 | a row count, and 0 for absent data |
| FinancialData.Summarize | src/hooks/useFinancialData.tsx:78-85 | each figure is 0 for absent data; the counts are the row counts; income and bill totals are not negative when no row is |
| FinancialData.NoDataIsZero | src/hooks/useFinancialData.tsx:78-85 | with no data at all the summary is all zero |
| FinancialData.SummaryOf | src/hooks/useFinancialData.tsx:34-85 | a missing table gives 0; the bills total sums only pending bills, the debts total only active debts, and the investments total every investment |
| FinancialData.OnlyPendingBillsCount | src/hooks/useFinancialData.tsx:44-80 | a bill adds its amount to the bills total exactly when it is pending |
| FinancialData.OnlyActiveDebtsCount | src/hooks/useFinancialData.tsx:51-81 | a debt adds its remaining balance to the debts total exactly when it is active |
| FinancialData.IncomeSinceMonthStartCounts | src/hooks/useFinancialData.tsx:34-79 | an income row adds its amount exactly when it is dated in the current month or later; `recorrente` plays no part |
| FinancialData.CountsAreActiveRows | src/hooks/useFinancialData.tsx:64-84 | the card and goal counts are the active rows, never more than the rows, and 0 when absent |
| FinancialData.FinancialDataHook.constructor | src/hooks/useFinancialData.tsx:17-25 | an all-zero summary, loading |
| FinancialData.FinancialDataHook.Load | src/hooks/useFinancialData.tsx:27-91 | with no user nothing changes and loading stays on; with a user the summary is the reduction of the current month's queries and loading ends |
| Dashboard.ToneOf | src/pages/Index.tsx:108-115 | positive exactly when the balance is not negative |
| Dashboard.SaldoTotal | src/pages/Index.tsx:36 | the balance plus bills and debts is the income, so it is not negative exactly when income covers bills and debts |
| Dashboard.Render | src/pages/Index.tsx:18-115 | skeletons exactly while loading; otherwise the summary, the balance income − bills − debts and its tone |
| Dashboard.SaldoIgnoresAssets | src/pages/Index.tsx:36 | investments and the card and goal counts do not affect the balance |
| Dashboard.SaldoMonotone | src/pages/Index.tsx:36 | more income, fewer bills or fewer debts never lower the balance, by exactly the differences |
| Dashboard.ZeroSummaryIsPositive | src/pages/Index.tsx:36-108 | the all-zero summary shows a balance of 0 as positive |
| AuthGuard.RequireAuth | src/components/auth/AuthGuard.tsx:11 | the guard requires a user unless told otherwise |
| AuthGuard.Redirect | src/components/auth/AuthGuard.tsx:16-26 | no redirect while loading; to '/auth' exactly when required, signed out and elsewhere; to '/' exactly when not required, signed in and on '/auth' |
| AuthGuard.RedirectMoves | src/components/auth/AuthGuard.tsx:16-26 | a redirect never targets the current path |
| AuthGuard.RedirectSettles | src/components/auth/AuthGuard.tsx:16-26 | after one redirect, the guard does not redirect again |
| AuthGuard.Render | src/components/auth/AuthGuard.tsx:28-36 | the loading view exactly while loading |
| SubscriptionGuard.Render | src/components/subscription/SubscriptionGuard.tsx:16-96 | nothing without a user; the checking screen while loading; the paywall when not subscribed; the children carry the tier |
| SubscriptionGuard.ChildrenOnlyWhenSubscribed | src/components/subscription/SubscriptionGuard.tsx:80-96 | the children render exactly for a signed-in, loaded, subscribed user |
| CheckPayment.ReplaceFirst | supabase/functions/check-payment/index.ts:36 | a string starting with the pattern has that first occurrence replaced |
| CheckPayment.ReplaceFirstAbsent | supabase/functions/check-payment/index.ts:36 | a string without the pattern is unchanged |
| CheckPayment.BearerToken | supabase/functions/check-payment/index.ts:36 | a header starting with "Bearer " yields the rest; any other non-empty header keeps its first character |
| CheckPayment.BearerRoundTrip | supabase/functions/check-payment/index.ts:36 | the token of "Bearer " + token is the token |
| CheckPayment.Authenticate | supabase/functions/check-payment/index.ts:30-40 | the four error messages in order of the checks, the auth error carrying the service's message; a key, a header and a user with an email give that user's account, and nothing else succeeds |
| CheckPayment.Take | supabase/functions/check-payment/index.ts:46-115 | a Stripe page is a prefix no longer than the limit |
| CheckPayment.IsSuccess | supabase/functions/check-payment/index.ts:120 | a session counts when paid and a one-off payment (used by HasSuccessfulPayment) |
| CheckPayment.ForEmail | supabase/functions/check-payment/index.ts:57-59 | a session belongs to the email through either of its two email fields (used by PaidByEmail) |
| CheckPayment.HasSuccessfulPayment | supabase/functions/check-payment/index.ts:119-128 | true exactly when some session is paid with mode 'payment' |
| CheckPayment.PaidByEmail | supabase/functions/check-payment/index.ts:57-64 | filtering by email and then looking for a paid session finds exactly a paid session for that email |
| CheckPayment.FindSessions | supabase/functions/check-payment/index.ts:46-115 | with no customer the sessions considered are those for the email; with one, the first customer is used |
| CheckPayment.Handle | supabase/functions/check-payment/index.ts:16-170 | OPTIONS answers first; an auth or Stripe error is a 500 with its message and no write; otherwise subscribed iff a considered session is paid; tier "Premium" and an end date one year on iff subscribed; one upsert by email agrees with the response |
| JsNumbers.CeilDiv | src/pages/Dividas.tsx:177 | `Math.ceil(a / b)` is the least q with q × b ≥ a |
| JsNumbers.TruncRem | src/pages/MuralSonhos.tsx:97 | `%` keeps the dividend's sign |
| JsNumbers.YearsAndMonths | src/pages/MuralSonhos.tsx:96-97 | a non-negative month count is whole years × 12 plus fewer than 12 months |
| Ordering.SortStable | src/pages/Dividas.tsx:164-170 | the sort keeps entries of equal key in their input order |
| Decimal.ParsePadded | src/hooks/useFinancialData.tsx:42 | a month padded to two digits reads back as itself |
| Decimal.NatToString | src/pages/MuralSonhos.tsx:99-100 | a non-empty run of digits with no leading zero |
| Decimal.IntToString | src/pages/MuralSonhos.tsx:99-100 | non-empty, and starts with "-" exactly for a negative number |
| Decimal.PadStart2 | src/hooks/useFinancialData.tsx:42 | at least two characters, ending in the input |
| Decimal.ParseNat | src/hooks/useFinancialData.tsx:42 | reads a number exactly from a non-empty run of digits |
| Ordering.SortBy | src/pages/Dividas.tsx:164-170 | a permutation of the input, sorted by the key |
| JsValues.TextOrNull | src/hooks/useDividas.tsx:68 | `x || null` on text: null exactly for a missing or empty text, otherwise the text itself |
| JsValues.NumberOrNull | src/hooks/useDividas.tsx:69 | `x ? x : null` on a number: null exactly for a missing or zero number, otherwise the number itself |
| JsValues.TextOr | src/hooks/useContasFixas.tsx:50 | `x || fallback`: the text when non-empty, otherwise the fallback |
| JsNumbers.FloorDiv | src/pages/MuralSonhos.tsx:96 | the greatest q with q × b ≤ a |
| JsNumbers.CeilQuotient | src/pages/Dividas.tsx:177 | finite exactly for a non-zero divisor, rounding the quotient up; a zero divisor gives +∞, −∞ or NaN by the sign of the dividend |
| Lists.WithoutIdIdempotent | src/hooks/useCartoesCredito.tsx:142 | deleting an id a second time leaves the list as the first deletion did |
| Lists.WithoutIdPrepend | src/hooks/useCartoesCredito.tsx:78-142 | deleting the id of a row just prepended by an add, when no other row has that id, gives the list before the add |
| Lists.UpdateAbsentId | src/hooks/useCartoesCredito.tsx:109-111 | an update for an id no entry has leaves the list unchanged |
| Lists.SumPermutation | src/pages/Dividas.tsx:87 | a `reduce` sum does not depend on the order of the entries |

## Left out

- Backend queries, the Stripe client and the auth client are not executed. Each call becomes a parameter: the row or list it returns, or the error it reports. Row-level security, server-side ordering and the `user_id` filters are not modelled.
- CartoesPage.StatusColor: only the band's text colour is modelled; its background class (`bgColor`) is presentation and is left out.
- The `DistribuicaoData` loop is a `method` that builds a `seq` value. The source's in-place `push` and `acc[i].valor +=` on the accumulator array are modelled as sequence updates.
- The clock and id generation are inputs:
  - the page ids `Date.now()` (`freshId`);
  - today's date on the investments form (`today`);
  - the current year and month in `useFinancialData`;
  - `now` in the payment check.
- The payment check reads the clock separately for each end date it writes (supabase/functions/check-payment/index.ts:78, 85, 138). The model takes one `now` for all reads and writes the end date as epoch milliseconds, not as an ISO string.
- The `updated_at` timestamps are left out.
- The payment check ignores the result of each subscriber upsert. The model returns the row it would write.
- `logStep`, CORS headers and the Stripe API version are left out.
- A Stripe list call returns at most its `limit` entries. This is modelled as the first `limit` entries of the list the account holds.
- Floating point is left out:
  - money is integer cents and rates are integer basis points;
  - `Number(x) || 0` on a value that is not a number (NaN) is not modelled, because the model's rows hold integers;
  - `Intl.NumberFormat`, `toFixed` and `toLocaleDateString` are left out.
- The following figures are left out, all floating-point estimates and none of them part of the lists' state:
  - the investments page's mean return and the `Math.pow` projection (src/pages/Investimentos.tsx:60-61, 127-129);
  - the debts page's annual interest and projected savings (src/pages/Dividas.tsx:173-178);
  - the fixed ×1.5/×0.2 estimates (src/pages/Dividas.tsx:482-501, 585, 591).
- JSX, dialogs, toasts, charts and the static chart arrays are left out. Only the icon and colour choices, and the text of the months-to-goal estimate, are modelled.
- The React lifecycle is left out: effect re-runs, stale closures and unmounting.
- A hook's `loading` flag around add, update and delete is unchanged by those operations, and the model states so.
- The fetch of `useMuralSonhos` (src/hooks/useMuralSonhos.tsx:26-55) does not compile as written (line 49). Its fetch and its `loading` flag are not part of this model.
- useSubscription, activate-subscription, Auth, App, AppSidebar, UserMenu, FinancialSummaryCard and the Supabase type declarations are not part of this model.
- FinancialData.ParseDate: only `YYYY-MM-DD` dates with a four-digit year are read. The comparison with the month bound is stated for those dates; the backend compares other date texts itself.
- The page lists start from sample entries. The model takes the initial list as a parameter instead of spelling the samples out.
- Recurring income: a description of the dashboard counts recurring income in the month's total. The code filters income on its receipt date only and never reads `recorrente`. The model follows the code (FinancialData.IncomeSinceMonthStartCounts).

## Findings

| source | as written | input that shows it | evidently intended | confidence | as-written member | corrected member |
|---|---|---|---|---|---|---|
| src/pages/MuralSonhos.tsx:91-101 | `calcularTempoRestante` divides `valorTotal - valorEconomizado` without clamping, then splits with `Math.floor` and `%` | a goal of 1000 with 2500 saved and 100 a month shows "-3m"; its -15 months split into -2 years and -3 months, which total -27 | a reached goal needs no more months and shows "0m" | not executed | MuralPage.OverfundedGoalCounterexample | MuralPage.TempoCorrigidoSound |
