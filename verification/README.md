# Gastos Inteligentes — a Dafny model

Gastos Inteligentes is a browser expense tracker. A user creates an account (e-mail,
password, a name from a prompt) and logs in. They enter a monthly salary and record
expenses by hand or by importing a bank statement. The dashboard then shows:

- the salary, the total spent, the balance and a quarter of the salary to invest;
- the spending and savings percentages;
- a list of recommendations;
- a doughnut chart of spending per category;
- bars comparing the current needs / wants / investments split with the ideal 50-30-20.

All state lives in the browser's storage under two keys:

- `usuarios` maps each e-mail to `{nome, senha, salario, gastos}`;
- `usuarioLogado` holds the e-mail remembered for automatic login.

The model covers the logic under the page, module by module:

- `Texto` holds the string operations the code relies on. These are `split` on a character or a character class, `trim`, the filter `replace(/[^\d,.-]/g, '')` and the first-occurrence `replace(',', '.')`.
- `Numero` is `parseFloat`, modelled as an exact reader of the longest decimal prefix (sign, digits, fraction, exponent), with `None` standing for `NaN`. It also covers the salary field's `parseFloat(x) || 0`.
- `Dados` holds the records and the storage/session class `Sessao`:
  - the fields `armazenado` (the `usuarios` key, absent until first written), `usuarioLogado` and `usuarioAtual` (the page's global);
  - the methods for account creation, login, logout, automatic login, the shallow-merge update of the current record and the salary handler;
  - the two findings below.
- `Extrato` is the bank-statement parser of `processarLinhasExtrato`, written as functions over one line and over all lines.
- `Gastos` holds the three expense-list operations of the current user: the manual form, removal by `splice`, and the statement import, whose `forEach` is a loop.
- `Agregacao` holds the `reduce` total and the category dictionary filled by the `forEach` that both the recommendations and the doughnut chart use. The dictionary's keys are kept in insertion order.
- `Dashboard` holds the dashboard figures, the statistics cards and the recommendation cascade, with each recommendation identified by its title.
- `Graficos` holds the numbers the two charts are fed.

Amounts are exact real numbers. Each state-changing function of the source is a method of `Sessao` or takes one.
Each such method is specified against the pure functions beside it (`AvisoCadastro`, `Mesclar`, `NovoGasto`,
`Remover`, `LerExtrato`, `PorCategoria`, `Recomendacoes`), and the properties are proved about those functions.

Observations the proofs make explicit:

- Field 1 of a statement line can never contain a comma, because the line was split on commas. So the
  `replace(',', '.')` on gastos.js:147 never changes anything. `"Rent;1500,00"` is read as 1500, and a
  Brazilian-style `"Coffee;12,50"` is read as 12, not 12.5.
- The sign of an imported amount is dropped: `"X,-5.00"` gives an expense of 5.
- The salary field accepts a negative salary. With one, any non-negative spending earns "Excelente Controle!"
  and never "Economia Exemplar".
- The investments bar has no floor. It is negative when spending exceeds the salary, and it never reaches its cap of 100.

## Model

| member | source | states |
|---|---|---|
| Texto.Split | gastos.js:143 | Splitting on a character class gives one more piece than there are separators, and no piece contains a separator. |
| Texto.SplitJoin | gastos.js:137 | Splitting on `\n` and joining back with `\n` gives the original text, so the lines cover the whole statement. |
| Texto.SplitWithoutSeparator | gastos.js:143-145 | A line containing none of the separators is a single field. |
| Texto.SplitAtSeparator | gastos.js:143 | Text before the first separator becomes field 0, and the rest is split on its own. |
| Texto.Trim | gastos.js:146 | The trimmed text is never longer than the field. |
| Texto.TrimStart | gastos.js:146 | Only leading white space is removed, and the result starts with a non-space. |
| Texto.TrimEnd | gastos.js:146 | Only trailing white space is removed, and the result ends with a non-space. |
| Texto.TrimEmptyIff | gastos.js:15 | A trimmed description is empty exactly when the field held only white space. |
| Texto.TrimNonSpaceBounds | gastos.js:146 | The trimmed text starts and ends with a non-space. |
| Texto.TrimIsSlice | gastos.js:146 | The trimmed text is the contiguous slice of the original that follows its leading white space. |
| Texto.TrimNonSpaceEnds | gastos.js:146 | Text with non-space ends is unchanged by trimming. |
| Texto.TrimIdempotent | gastos.js:146 | Trimming twice is trimming once. |
| Texto.KeepAmountChars | gastos.js:147 | The filter keeps exactly the digits, commas, periods and minus signs of the field. |
| Texto.KeepAmountCharsIdentity | gastos.js:147 | Text already made of amount characters passes the filter unchanged. |
| Texto.KeepAmountCharsConcat | gastos.js:147 | The filter distributes over concatenation. |
| Texto.ReplaceFirst | gastos.js:147 | The replacement keeps the length, and text without a comma is unchanged. |
| Texto.ReplaceFirstOccurrence | gastos.js:147 | Only the first comma becomes a period; everything else stays. |
| Numero.ParseFloat | gastos.js:148 | A number is read only when the first non-blank character is a digit, a sign or a point. |
| Numero.ParseFloatOrZero | dados.js:199 | An unreadable salary (`NaN`) becomes 0; a readable one is kept. |
| Numero.NoDigitIsNaN | gastos.js:148 | Text without any digit reads as `NaN`. |
| Numero.NaNExamples | gastos.js:148 | `""`, `"-"` and `"."` read as `NaN`. |
| Numero.DoubleMinusIsNaN | gastos.js:147-148 | `"--5"`, which the filter lets through, reads as `NaN`. |
| Numero.CentsRoundTrip | gastos.js:148 | An amount printed with two decimals reads back exactly, with either sign. |
| Numero.NatRoundTrip | gastos.js:148 | A whole number printed in decimal reads back exactly. |
| Numero.DecimalReading | gastos.js:148 | An integer part, a point and a fraction read as their exact decimal value. |
| Numero.ExponentOf | gastos.js:148 | An exponent part `e` followed by digits scales by ten to the power those digits denote. |
| Numero.PowerOfTenReading | gastos.js:148 | `1e` followed by digits reads as ten to the power those digits denote. |
| Numero.NegativeExponentReading | gastos.js:148 | `1e-` followed by digits reads as one over ten to the power those digits denote. |
| Numero.ExponentExample | gastos.js:148 | `1e3` reads as 1000, so the amount and salary fields accept an exponent. |
| Numero.DigitWhenRead | gastos.js:148 | Whatever reads as a number contains a digit. |
| Numero.MinusNegates | gastos.js:148 | When the rest does not start with a blank or a sign, a leading minus negates whatever the rest reads as, and `NaN` stays `NaN`. |
| Numero.UnsignedStart | gastos.js:148 | Text starting with a non-space, non-sign character reads as its unsigned literal. |
| Dados.MesclarCompleta | dados.js:40-43 | Merging a whole record replaces the old one, and merging the same values twice is merging once. |
| Dados.ValoresPositivosAoGravar | dados.js:40-44 | Writing back a record with positive amounts keeps every stored amount positive. |
| Dados.CadastroFantasma | dados.js:74 | As written, the e-mail `toString` counts as registered in a store that does not hold it. |
| Dados.DuplicadoSoSeCadastrado | dados.js:73-77 | With the own-key test, a filled-in form is a duplicate exactly when the e-mail is stored, and `toString` can be registered. |
| Dados.BuscaSemLoginComoEscrita | dados.js:32 | As written, with nobody logged in, the record stored under the e-mail `null` is returned. |
| Dados.Buscar | dados.js:30-33 | Nobody logged in gives no record. Otherwise the record is returned exactly when the e-mail is stored, and it agrees with the code as written. |
| Dados.CadastroPermiteLogin | dados.js:80-124 | After a successful registration, the same e-mail and password log in, any other password is refused, and a second registration is a duplicate. |
| Dados.AvisoCadastro | dados.js:59-77 | The account is created exactly when both fields are filled, a non-blank name was typed and the e-mail is not stored. "Already registered" only for a stored e-mail. Only the four registration alerts occur. |
| Dados.AvisoLogin | dados.js:105-124 | Login succeeds exactly when both fields are filled, the e-mail is stored and its password matches. "User not found" only for an e-mail that is not stored. Only the four login alerts occur. |
| Dados.Sessao.constructor | dados.js:4 | A page load keeps the stored data and starts with nobody logged in. |
| Dados.Sessao.SalvarTodosUsuarios | dados.js:15-25 | The whole map becomes the stored value, and reading the store back returns exactly that map. |
| Dados.Sessao.BuscarUsuarioAtual | dados.js:30-33 | A record is returned exactly when someone is logged in and stored, and it is that user's record. |
| Dados.Sessao.AtualizarUsuarioAtual | dados.js:38-45 | Only the current user's record changes, and it becomes the shallow merge; the session stays valid. |
| Dados.Sessao.CriarConta | dados.js:54-95 | Both fields are trimmed first. Then the alert follows the validation order: an empty field, then a blank name, then a duplicate e-mail. A refused form changes nothing. A success adds exactly one record (trimmed name, salary 0, no expenses), keeps every other user, and logs in and remembers the e-mail. |
| Dados.Sessao.Cadastrar | dados.js:59-94 | Given the trimmed e-mail and password: the same validation order, the same single new record, and nothing changed when the form is refused. |
| Dados.Sessao.FazerLogin | dados.js:100-130 | Both fields are trimmed first. Login succeeds only for a stored e-mail whose stored password equals the trimmed one typed. Otherwise the session is unchanged. |
| Dados.Sessao.Autenticar | dados.js:105-129 | Given the trimmed e-mail and password: an empty field, then an unknown e-mail, then a wrong password is refused and leaves the session unchanged. Otherwise that e-mail is logged in and remembered. |
| Dados.Sessao.Sair | dados.js:135-137 | Nobody is logged in and no e-mail is remembered. |
| Dados.Sessao.VerificarAutoLogin | dados.js:151-160 | The remembered e-mail is resumed exactly when it is non-empty and stored; otherwise the session is unchanged. |
| Dados.Sessao.AlterarSalario | dados.js:198-204 | Only the current user's salary changes, to the parsed value or 0 for `NaN`. |
| Agregacao.Total | dashboard.js:13 | With no negative amount, the total is never negative. |
| Agregacao.TotalConcat | dashboard.js:13 | The total of two lists put together is the sum of their totals. |
| Agregacao.TotalPermutation | dashboard.js:13 | The total does not depend on the order of the expenses. |
| Agregacao.TotalPositive | dashboard.js:13 | With positive amounts the total is never negative, and it is positive when there is an expense. |
| Agregacao.Acumular | graficos.js:164 | Adding one expense keeps the keys distinct and matched with the sums. |
| Agregacao.PorCategoria | graficos.js:163-165 | The filled dictionary is well formed. |
| Agregacao.SomarPorCategoria | graficos.js:161-165 | The `forEach` loop builds exactly the dictionary `PorCategoria` describes. |
| Agregacao.EntradasPorCategoria | dashboard.js:129 | `Object.values` and `Object.entries` list the same sums. Each entry pairs a category some expense carries with that category's total, and entries are distinct and in first-occurrence order. |
| Agregacao.ChavesSaoCategorias | graficos.js:163-169 | A category is a key exactly when some expense carries it. |
| Agregacao.SomaDaCategoria | graficos.js:164 | Each key's sum is the total of that category's expenses. |
| Agregacao.SomaDasCategorias | graficos.js:163-170 | The sums of all categories add up to the total of all expenses. |
| Agregacao.ChavesOcorrem | graficos.js:169 | Every key is a category some expense carries. |
| Agregacao.OrdemDePrimeiraOcorrencia | graficos.js:169 | Keys appear in the order in which their categories first occur. |
| Extrato.Abs | gastos.js:148 | `Math.abs` keeps `NaN` and otherwise gives the non-negative value of either sign. |
| Extrato.AbsNegate | gastos.js:148 | A negated reading has the same absolute value. |
| Extrato.ValorDoCampo | gastos.js:147-148 | The amount read from field 1 is never negative. |
| Extrato.LerLinha | gastos.js:143-159 | An accepted line gives a non-empty trimmed description, a positive amount, category `Outros` and the import's timestamp. |
| Extrato.Importar | gastos.js:142-161 | A sequence of lines yields at most one expense per line. |
| Extrato.ImportarPasso | gastos.js:142-161 | One more line appends exactly what that line yields. |
| Extrato.ImportarConcat | gastos.js:142-161 | Lines are read independently and in order. |
| Extrato.LerExtrato | gastos.js:137-161 | The statement yields at most one expense more than it has line breaks. |
| Extrato.ImportadosBemFormados | gastos.js:146-156 | Every imported expense has a non-empty trimmed description, a positive amount and category `Outros`. |
| Extrato.LinhaDeUmCampo | gastos.js:143-145 | A line with no separator yields nothing. |
| Extrato.VirgulaNuncaSubstituida | gastos.js:143-147 | Field 1 holds no comma after filtering, so the comma replacement leaves it unchanged. |
| Extrato.SinalDescartado | gastos.js:147-148 | When the filtered field does not already start with `-`, a leading minus gives the same amount as without it. (A field already starting with `-`, such as `-5`, becomes `--5` and reads as `NaN`.) |
| Extrato.CamposDaLinha | gastos.js:143 | In `descricao sep valor rest`, field 0 is the description and field 1 is the value. |
| Extrato.LinhaBemFormada | gastos.js:143-158 | A well-formed line yields its description and the absolute value of its amount, in category `Outros`. |
| Extrato.TresLinhas | gastos.js:137 | Three lines joined by line breaks split back into those three lines. |
| Extrato.ImportarTres | gastos.js:142-161 | Three lines yield what each of them yields, in order. |
| Extrato.AbsDeCentavosNegativos | gastos.js:148 | A minus sign before an amount printed with two decimals reads back, in absolute value, as that amount. |
| Extrato.LinhaCoffee | gastos.js:143-158 | `"Coffee,12.50"` yields Coffee at 12.5 in category `Outros`. |
| Extrato.LinhaBadLine | gastos.js:143-145 | `"Bad Line"`, with no separator, yields nothing. |
| Extrato.LinhaRent | gastos.js:143-148 | `"Rent;1500,00"` yields Rent at 1500: the `,00` falls into a third field. |
| Extrato.ExemploDeExtrato | gastos.js:137-161 | `"Coffee,12.50\nBad Line\nRent;1500,00"` yields Coffee 12.5 and Rent 1500, in that order. |
| Extrato.ExemploNegativo | gastos.js:147-148 | `"X,-5.00"` yields X at 5. |
| Gastos.NovoGasto | gastos.js:10-29 | The form gives an expense exactly when the trimmed description is non-empty and the amount reads as a positive number. The expense carries those values, the category and the timestamp. |
| Gastos.NovoGastoRecusado | gastos.js:15-18 | A blank description, an unreadable amount, a zero amount and a lone space are all refused. |
| Gastos.Remover | gastos.js:51 | An index in range removes exactly that element. The length drops by one, earlier elements stay, later ones shift left, and the multiset loses just that element. An index past the end changes nothing. |
| Gastos.RemoverDoFim | gastos.js:51 | A negative index removes the element that many places from the end. |
| Gastos.RemoverAntesDoInicio | gastos.js:51 | An index before the start of a non-empty list removes its first element. |
| Gastos.AnexarLinhas | gastos.js:139-161 | The loop appends exactly what the lines yield, after the existing expenses. The counter equals the number appended and is at most the number of lines. |
| Gastos.AdicionarGasto | gastos.js:8-42 | An expense is added exactly when the form is valid and someone is logged in, at the end of that user's list and nowhere else. Otherwise nothing is stored. Stored amounts stay positive. |
| Gastos.RemoverGasto | gastos.js:47-60 | Only the current user's list changes, and it becomes the list with one element spliced out. Stored amounts stay positive. |
| Gastos.ProcessarLinhasExtrato | gastos.js:136-171 | The current user's list becomes the old list followed by the statement's expenses; nothing else changes. The count is the number added, at most one more than the line breaks. Stored amounts stay positive. |
| Dashboard.ResumoComValoresPositivos | dashboard.js:13-16 | With positive amounts the balance never exceeds the salary, and is below it when there is an expense. |
| Dashboard.ResumoIndependeDaOrdem | dashboard.js:13-16 | The figures do not depend on the order of the expenses. |
| Dashboard.ResumoAoAcrescentar | dashboard.js:13-16 | Appending expenses raises the total and lowers the balance by their total. |
| Dashboard.AtualizarEstatisticas | dashboard.js:36-55 | The percentages are 0 when the salary is not positive. Otherwise the spending percentage is total over salary times 100, and the two percentages sum to 100. The balance is green exactly when it is non-negative, and the investment is a quarter of the salary. |
| Dashboard.IndiceDoMaximo | dashboard.js:129-132 | The stable descending sort puts first the first of the largest sums. |
| Dashboard.IndiceDoMaximoUnico | dashboard.js:129-132 | That entry is the only one that is largest and precedes every other largest entry. |
| Dashboard.AtualizarRecomendacoes | dashboard.js:64-138 | The pushes build exactly the list `Recomendacoes` describes. |
| Dashboard.Recomendacoes | dashboard.js:64-138 | There are 1 to 5 recommendations, and "Configure seu salário" is among them exactly when the salary is 0. |
| Dashboard.AcrescentarDestaque | dashboard.js:121-137 | Sorting the entries and pushing the first one when it exceeds a quarter of the salary appends exactly the highlight `DestaqueDe` defines. |
| Dashboard.FormaDasRecomendacoes | dashboard.js:67-137 | Salary 0 gives only "Configure seu salário". Otherwise there are 1 to 5 entries in cascade order (proportion note, economy, 50-30-20, investment or savings tip, highlight), with 50-30-20 exactly once and no salary prompt. |
| Dashboard.Limiares | dashboard.js:75-118 | With a salary, each title appears exactly when its threshold holds. |
| Dashboard.NotasExclusivas | dashboard.js:78-90 | High spending and excellent control never appear together, and neither appears for a ratio between 0.5 and 0.8. |
| Dashboard.DicasExclusivas | dashboard.js:107-118 | For any non-zero salary, the investment opportunity and the savings tip never appear together. With a positive salary, neither appears without a positive balance. With a negative salary whose balance is the salary minus a non-negative total, neither appears. |
| Dashboard.Implicacoes | dashboard.js:85-108 | With a positive salary, when the balance is the salary minus the total, exemplary economy implies the investment opportunity, and excellent control implies exemplary economy. |
| Dashboard.SalarioNegativo | dashboard.js:75-98 | A negative salary with non-negative spending earns excellent control and never exemplary economy. |
| Dashboard.DestaqueDaMaiorCategoria | dashboard.js:121-137 | The highlighted category is carried by some expense, and its total exceeds a quarter of the salary. No category totals more, and every category first seen earlier totals strictly less. |
| Dashboard.DestaqueQuandoExcede | dashboard.js:121-137 | A category totalling more than a quarter of the salary always earns a highlight, and it comes last. |
| Graficos.ChavesSeHaGastos | graficos.js:168 | The dictionary has a key exactly when there is an expense. |
| Graficos.AtualizarGraficoGastos | graficos.js:159-188 | No expenses give `["Sem dados"]` and `[1]`. Otherwise there is one distinct label per category in first-occurrence order, its value is the category total, and the values add up to the total of all expenses. |
| Graficos.IdealSomaCem | graficos.js:84 | The ideal split has three parts adding up to 100. |
| Graficos.Min | graficos.js:203-205 | `Math.min` is the smaller of its arguments. |
| Graficos.DistribuicaoAtual | graficos.js:193-218 | Three bars, each at most 100. Wants lie between 0 and needs, and they are positive when the salary and the total are. |
| Graficos.DistribuicaoVazia | graficos.js:197-215 | Unless the salary and the total are both positive, the bars are `[0, 0, 0]`. |
| Graficos.Percentuais | graficos.js:198-199 | The savings percentage is 100 minus the spending percentage. It is negative exactly when the total exceeds the salary, and the needs cap binds exactly when the total exceeds five thirds of the salary. |
| Graficos.DistribuicaoComDados | graficos.js:193-211 | Needs and wants are at most 100 and wants never exceed needs. Investments are the savings percentage: below 100, so never capped, and negative exactly when spending exceeds the salary. Uncapped, needs and wants are 0.6 and 0.4 of spending and the three add up to 100. |

## Left out

- The DOM is not modelled. This covers field reads and clearing, `textContent`/`className` writes, the recommendations' HTML, `atualizarListaGastos` and the screen switch of `mostrarDashboard`. Form values are method parameters.
- Chart.js is not modelled: the chart objects, their colours and `update()`. The charts' inputs are returned as sequences instead.
- `alert`, `prompt` and `console.log` are left out. The alerts of the account forms are the `Aviso` result, and the prompt's answer is a parameter (`None` when cancelled).
- File reading is left out: `importarExtrato`, `importarExtratoTexto` and the PDF.js text extraction are I/O. The parser takes the statement as a string.
- Browser storage and JSON are an in-memory map whose serialisation round trip is the identity.
- `new Date().toISOString()` is one opaque `agora` parameter per operation. The source reads the clock once per imported line.
- `formatarDinheiro`, the `toFixed(1)` strings and the recommendation texts are formatting. Recommendations are identified by title, and the percentages are exact.
- IEEE-754 doubles are not modelled. This includes rounding in sums and quotients and the `Infinity` literal. Digit strings too long for a double, which would read as `Infinity` and pass `!isNaN`, are also out.
- Strings are sequences of code points, not UTF-16 units.
- JavaScript orders integer-like property names (such as a category `"2024"`) before the others. The category dictionary assumes plain insertion order.
- Dados.Sessao.CriarConta: a category or e-mail equal to an `Object.prototype` member is taken as an ordinary key. The as-written behaviour for e-mails is the second finding.
- Dados.Sessao.FazerLogin: it likewise uses the own-key test. As written, `toString` reaches the password check and reports "Senha incorreta" instead of "Usuário não encontrado".
- Agregacao.Acumular: it does not model the `|| 0` reading an inherited member for a category named like one.
- Gastos.AdicionarGasto, Gastos.RemoverGasto: with nobody logged in, the source throws a `TypeError` at `usuario.gastos` before writing anything, unless an account is stored under the e-mail `null`, which it then changes (the first finding). The model returns without a change. The same holds for the salary handler (Dados.Sessao.AlterarSalario).
- Gastos.ProcessarLinhasExtrato: with nobody logged in, the model returns without a change. The source throws at `usuario.gastos.push` only when some line is accepted. When no line is accepted, it calls `atualizarUsuarioAtual(null)` (gastos.js:164), which writes the key `"null"`, and only then throws in the dashboard. If an account is stored under the e-mail `null`, the source imports into it (the first finding).
- Dados.Sessao.AtualizarUsuarioAtual: with nobody logged in, the source writes the merge under the key `"null"` (an empty record when that key is absent). The model leaves the store unchanged.
- Texto.Trim: its own contract states only the length bound. That the ends are non-blank, that the result is a slice of the field and that trimming is idempotent are the lemmas TrimNonSpaceBounds, TrimIsSlice and TrimIdempotent.
- Numero.ParseFloat: its own contract states only what a readable text starts with. The values read are the lemmas CentsRoundTrip, NatRoundTrip, DecimalReading, PowerOfTenReading, NegativeExponentReading and MinusNegates, and the `NaN` cases are NoDigitIsNaN, NaNExamples and DoubleMinusIsNaN.
- Gastos.RemoverGasto: the index is an integer. `splice` with a fractional or non-numeric index is not modelled, since the list's buttons always pass an integer position.
- Dashboard.IndiceDoMaximo: the sort is modelled by its first entry only, since nothing else of the sorted array is used.
- Dashboard.AtualizarRecomendacoes: it takes the current user's expenses as a parameter. The source reads them again with `buscarUsuarioAtual`.
- Dashboard.ResumoDe: `usuario.salario || 0` is the stored salary itself. The salary handler never stores `NaN`, and a stored 0 is 0 either way.

## Findings

| source | as written | input that shows it | evidently intended | confidence | as-written member | corrected member |
|---|---|---|---|---|---|---|
| dados.js:30-33 | `usuarios[usuarioAtual] \|\| null` with `usuarioAtual === null` reads the property `"null"` | nobody logged in, and an account registered with the e-mail `null`: that account's record is returned | no current user gives no record | low: the dashboard is only reachable after login; not executed | Dados.BuscaSemLoginComoEscrita (on Dados.BuscarComoEscrito) | Dados.Buscar |
| dados.js:74 | the truthiness of `usuarios[email]` also holds for members inherited from `Object.prototype` | registering the e-mail `toString` in any store without it: "Este email já está cadastrado!" | a duplicate only when the e-mail is a stored key | medium: reachable from the form; not executed | Dados.CadastroFantasma (on Dados.CadastradoComoEscrito) | Dados.DuplicadoSoSeCadastrado (on Dados.AvisoCadastro, used by Dados.Sessao.Cadastrar) |
