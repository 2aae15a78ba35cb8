# Ledger entry validation and reports, in Dafny

This project models `service.js` of a small ledger service. The service handles
ledger entries (*lançamentos*). Each entry ties a Brazilian taxpayer number
(CPF) to a signed amount (`valor`). It has two parts:

- **Validation.** `validarEntradaDeDados` is the admission gate. It runs five
  checks in a fixed order and returns the message of the first one that fails,
  or `null`. The gate uses `validarCPF`, the modulo-11 check-digit algorithm for
  CPFs.
- **Reports.** Four functions read a sequence of admitted entries:
  - `recuperarSaldosPorConta` gives the balance of each CPF, in first-seen order.
  - `recuperarMaiorMenorLancamentos` gives the smallest and largest entry of one CPF.
  - `recuperarMaioresSaldos` gives the three largest balances.
  - `recuperarMaioresMedias` gives the three largest averages, truncated toward zero.

Modules:

- `Cpf` (`cpf.dfy`) defines digits, stripping of non-digits, the ten rejected
  repeated-digit strings, and the weighted sums. `CpfValido` is the reference
  definition of a valid CPF. `ValidarCpf` and `ConferirDigitos` are the
  service's algorithm, with its two accumulating loops, proved to compute it.
- `Validacao` (`validacao.dfy`) models the gate. The value is a tagged
  `Valor = Num(int) | NaoNumerico`, so the `typeof` test becomes a tag test.
  Each message is a `Motivo` constructor. `Passa` says what each check demands.
- `Ordenacao` (`ordenacao.dfy`) models `Array.prototype.sort` with a numeric
  comparator. It is a stable sort on sequences, ascending by a real key.
- `Contabilidade` (`contabilidade.dfy`) holds the reports. The service's
  dictionary is a `map` from CPF to accumulator, plus the sequence of its keys
  in insertion order. `Agrupar` is the insert-or-update loop. The balance
  report and the two rankings are methods proved equal to reference functions,
  and lemmas prove what those functions promise. The smallest-and-largest
  report has no loop; it is a function whose contract states its result.
- `Exemplos` (`exemplos.dfy`) works out small ledgers by hand.

Amounts are whole units (`int`). Averages are compared exactly, as `real`
quotients of integer sums and positive counts. `Truncar` writes out the
truncation toward zero that `parseInt(saldo / n)` performs. Dafny's `/` on
`int` is Euclidean, so it cannot be used directly.

Two details of the code that the model keeps:

- The rankings always cut at three rows; there is no limit parameter
  (`service.js` lines 120 and 147).
- `/^\d+$/` needs at least one digit, so the empty CPF gets `CpfNaoNumerico`,
  not `CpfInvalido` (`service.js` line 3).

## Model

| member | source | states |
|---|---|---|
| `Cpf.RemoverNaoDigitos` | js-challenge-contabilizar-main/service.js:33 | stripping keeps only digits, never lengthens the string, and leaves an all-digit string unchanged |
| `Cpf.RemoverNaoDigitosConcatena` | js-challenge-contabilizar-main/service.js:33 | stripping non-digits distributes over concatenation |
| `Cpf.FormatadoEquivale` | js-challenge-contabilizar-main/service.js:33 | the punctuated form `NNN.NNN.NNN-NN` strips back to its eleven digits, so it gets the same verdict |
| `Cpf.ConhecidoInvalidoSeERepetido` | js-challenge-contabilizar-main/service.js:36-50 | the ten rejected literals are exactly the eleven-character strings of one repeated digit |
| `Cpf.FormaInvalidaRejeitada` | js-challenge-contabilizar-main/service.js:34-50 | no digits, a digit count other than 11, or one digit repeated 11 times: the CPF is invalid |
| `Cpf.DigitoVerificador` | js-challenge-contabilizar-main/service.js:54-55 | the check digit is in 0..9 and brings the weighted sum to a multiple of 11, except that remainder 1 gives 0 |
| `Cpf.DigitosConferemSeDigitosVerificadores` | js-challenge-contabilizar-main/service.js:51-63 | both checks pass on eleven digits iff the last two digits are the check digits computed from the first nine |
| `Cpf.CpfValidoSeDigitosVerificadores` | js-challenge-contabilizar-main/service.js:32-64 | a string is valid iff its digits are eleven, not one repeated digit, and end with the check digits of their first nine |
| `Cpf.CpfValidoSeDigitosConferem` | js-challenge-contabilizar-main/service.js:36-63 | an all-digit, eleven-character, non-repeated string passing both checks is valid |
| `Cpf.PrimeiroDigitoAlteradoInvalida` | js-challenge-contabilizar-main/service.js:51-56 | changing the first check digit of a valid CPF makes it invalid |
| `Cpf.UltimoDigitoAlteradoInvalida` | js-challenge-contabilizar-main/service.js:57-62 | changing the second check digit of a valid CPF makes it invalid |
| `Cpf.ExemploDigitosConferem` | js-challenge-contabilizar-main/service.js:51-62 | `52998224725` passes both checks (weighted sums 295 and 347) |
| `Cpf.ExemploValido` | js-challenge-contabilizar-main/service.js:32-64 | `52998224725` is a valid CPF |
| `Cpf.ExemploFormatado` | js-challenge-contabilizar-main/service.js:33-64 | `529.982.247-25` is a valid CPF |
| `Cpf.ExemploInvalido` | js-challenge-contabilizar-main/service.js:57-62 | `52998224726` is not a valid CPF |
| `Cpf.ValidarCpf` | js-challenge-contabilizar-main/service.js:32-64 | the algorithm (strip, reject by shape, recompute both digits) returns true exactly for `CpfValido` inputs, and never fails |
| `Cpf.ConferirDigitos` | js-challenge-contabilizar-main/service.js:51-63 | the two accumulating loops accept an eleven-digit string exactly when both check digits agree with the weighted sums |
| `Validacao.ValidarEntradaDeDados` | js-challenge-contabilizar-main/service.js:1-29 | returns no reason iff all five checks pass; otherwise returns a failing check, and every check before it in the order passes |
| `Validacao.EntradaAceita` | js-challenge-contabilizar-main/service.js:1-29 | an accepted entry has eleven digits, not one repeated digit, correct check digits, and a numeric value in [-2000, 15000] |
| `Validacao.CpfCurtoInvalido` | js-challenge-contabilizar-main/service.js:3-10 | a non-empty all-digit CPF whose length is not 11 passes the first check and is reported as an invalid CPF |
| `Validacao.ExemploAceito` | js-challenge-contabilizar-main/service.js:1-29 | `52998224725` with the value 100 is accepted |
| `Validacao.ExemplosDeValor` | js-challenge-contabilizar-main/service.js:12-25 | with a valid CPF, 15001 is above the maximum, -2001 below the minimum, and a non-number is rejected as such |
| `Validacao.ExemploCpfCurto` | js-challenge-contabilizar-main/service.js:7-10 | `123` passes the digits-only check and is reported as an invalid CPF |
| `Validacao.ExemploCpfFormatado` | js-challenge-contabilizar-main/service.js:2-5 | the punctuated `529.982.247-25` fails the digits-only check |
| `Ordenacao.Ordenar` | js-challenge-contabilizar-main/service.js:90 | the sort returns a permutation of its input, in non-decreasing key order |
| `Ordenacao.Inserir` | js-challenge-contabilizar-main/service.js:144 | one insertion step adds exactly one element and loses none |
| `Ordenacao.InserirOrdenada` | js-challenge-contabilizar-main/service.js:117 | inserting into a sorted sequence keeps it sorted |
| `Ordenacao.Primeiros` | js-challenge-contabilizar-main/service.js:117-120 | the first n elements after sorting are sorted and drawn from the input, none more often than it occurs there (a sub-multiset), and no element left out has a smaller key than the last kept |
| `Contabilidade.FiltrarMembros` | js-challenge-contabilizar-main/service.js:83 | the filtered entries are exactly the entries of the given CPF |
| `Contabilidade.CpfsMembros` | js-challenge-contabilizar-main/service.js:67-75 | the dictionary's keys are exactly the CPFs that have an entry |
| `Contabilidade.CpfsEmOrdemDePrimeiraOcorrencia` | js-challenge-contabilizar-main/service.js:75 | keys are listed in the order of their first entries |
| `Contabilidade.TabelaCorreta` | js-challenge-contabilizar-main/service.js:128-135 | after the insert-or-update pass, each CPF's accumulator holds the sum and the count of its entries, and there is no other key |
| `Contabilidade.Agrupar` | js-challenge-contabilizar-main/service.js:67-73 | the grouping loop yields the CPFs in first-seen order and, per CPF, the sum and count of its entries |
| `Contabilidade.RecuperarSaldosPorConta` | js-challenge-contabilizar-main/service.js:66-76 | the method computes the reference report `Saldos` |
| `Contabilidade.SaldosPorContaCobrem` | js-challenge-contabilizar-main/service.js:66-76 | a row for every CPF of the ledger and for no other string; each balance is the sum of that CPF's values |
| `Contabilidade.SaldosPorContaOrdenados` | js-challenge-contabilizar-main/service.js:75 | each CPF appears once, and rows come in order of first occurrence |
| `Contabilidade.SaldosPorContaConservam` | js-challenge-contabilizar-main/service.js:68-73 | the balances add up to the sum of all entry values: nothing lost, nothing counted twice |
| `Contabilidade.RecuperarMaiorMenorLancamentos` | js-challenge-contabilizar-main/service.js:82-93 | `[]` iff no entry has the CPF; `[e, e]` for a single entry; otherwise two entries of that CPF, the first no larger and the second no smaller than every entry of the CPF |
| `Contabilidade.RecuperarMaioresSaldos` | js-challenge-contabilizar-main/service.js:96-121 | the method computes the reference ranking `MaioresSaldos` |
| `Contabilidade.MaioresSaldosCorretos` | js-challenge-contabilizar-main/service.js:111-120 | min(3, #CPFs) rows, in non-increasing balance, drawn from the balance report with no row taken twice (a sub-multiset), for distinct CPFs, and no omitted balance above the last reported one |
| `Contabilidade.TruncarEntre` | js-challenge-contabilizar-main/service.js:147 | truncation gives the multiple of n nearest to the sum on the side of zero |
| `Contabilidade.TruncarSimetrico` | js-challenge-contabilizar-main/service.js:147 | truncation commutes with negation |
| `Contabilidade.RecuperarMaioresMedias` | js-challenge-contabilizar-main/service.js:123-149 | the method computes the reference ranking `MaioresMedias` |
| `Contabilidade.MediaExataMembro` | js-challenge-contabilizar-main/service.js:137-141 | every average row belongs to a CPF of the ledger and carries its balance and entry count |
| `Contabilidade.MaioresMediasCorretas` | js-challenge-contabilizar-main/service.js:137-147 | min(3, #CPFs) rows, each for a CPF of the ledger, for distinct CPFs, in non-increasing exact average, each average truncated toward zero |
| `Contabilidade.MaioresMediasExcluidas` | js-challenge-contabilizar-main/service.js:143-147 | no CPF left out has a larger exact average than the last one reported |
| `Contabilidade.ChamadasRepetidasConcordam` | js-challenge-contabilizar-main/service.js:66-149 | each report starts from a fresh dictionary, so two calls on the same ledger give equal results |
| `Exemplos.ExemploSaldos` | js-challenge-contabilizar-main/service.js:66-76 | `[A:100, B:10, A:-50]` gives `[A:50, B:10]`, in first-seen order |
| `Exemplos.ExemploMaiorMenor` | js-challenge-contabilizar-main/service.js:82-93 | other CPFs are ignored, and the smallest and largest entries come out in that order |
| `Exemplos.ExemploMedia` | js-challenge-contabilizar-main/service.js:123-149 | a sum of -8 over three entries is reported as the average -2 |

## Left out

- Amounts are whole-unit integers. JavaScript floating-point sums, `NaN` and
  the infinities are not modelled. `parseFloat` on a number (line 102) is the
  identity, so it is left out too.
- The aggregators take admitted entries whose value is a number
  (`Lancamento(cpf, valor: int)`). The source does not check the value type
  there, and callers must validate entries first.
- Truncar: models `parseInt(x)` as truncation toward zero. `parseInt` first
  turns the number into a string. For |x| < 1e-6 or |x| >= 1e21 that string
  is in exponent notation, and `parseInt` then gives a different integer, for
  example 5 for 5e-7. This is not modelled.
- Regular expressions are modelled as a digit predicate and a digit filter.
  `\d` means the ASCII digits 0-9.
- A non-string CPF is not modelled: `Entrada.cpf` is a string. In the source,
  the test on line 3 coerces a number such as `52998224725` to a string and
  lets it through. `validarCPF` then calls `.replace` on a number (lines 8
  and 33), which throws a `TypeError`, so for such an entry the gate throws
  instead of returning a message.
- Key order: `Object.keys`/`Object.entries` list array-index keys (canonical
  integers below 2^32 - 1, such as `"123"`) first, in numeric order. The model
  uses insertion order for every key. This matches the source for eleven-digit
  CPFs, which are all above that bound or start with `0`.
- Keys that name properties of `Object.prototype`: the dictionaries are plain
  `{}` objects and inherit them, and the model does not capture this.
  - For a CPF such as `"constructor"` or `"toString"`, `!saldos[cpf]` is false
    (lines 69, 104 and 130). The `+=` then appends the value to the text of an
    inherited function, so the balance becomes a string.
  - `recuperarMaioresMedias` writes `saldo` and `numLancamentos` onto that
    inherited function (lines 133-134), and the CPF gets no row (line 138).
  - For `"__proto__"`, the two balance reports ignore the assignments, and
    the CPF never appears in `Object.keys`/`Object.entries` (lines 75 and 112).
    `recuperarMaioresMedias` writes onto `Object.prototype` itself (lines
    133-134), and the CPF gets no row (line 138).
  - The model treats every string as an ordinary key. Eleven-digit CPFs, the
    only ones the gate admits, are never such names.
- `!saldos[cpf]` resets a balance of 0 to 0. This changes nothing, so it is
  modelled as a plain insert-or-update.
- The three copies of the accumulation loop are one method, `Agrupar`. It
  always keeps the entry count as well as the sum. The balance reports ignore
  the count.
- Ordenar: the sort is modelled on values rather than in place. The arrays it
  sorts are fresh and never shared, so this is not observable. The model
  inserts each element before equal keys, which gives a stable order. Stability
  itself is not stated or proved, so the order of tied rows is left open.
- The `console.log` at line 91 is debug output and is not modelled.
- The messages are modelled as the five `Motivo` constructors, not as their
  Portuguese text.
