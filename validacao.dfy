/**
  The admission gate for one ledger entry (`validarEntradaDeDados`).

  Five checks run in a fixed order and the first one that fails decides the
  reported reason; an entry that passes all five is accepted.
 */
module Validacao {
  import opened Cpf

  /** The `valor` field as it arrives: a number, or anything else. */
  datatype Valor = Num(n: int) | NaoNumerico

  /** An entry as submitted, before the gate. */
  datatype Entrada = Entrada(cpf: string, valor: Valor)

  /** One rejection reason per guarded return of the gate, declared in the
      order the checks run. */
  datatype Motivo =
    | CpfNaoNumerico       // the CPF is not a non-empty run of digits
    | CpfInvalido          // the CPF fails the check-digit algorithm
    | ValorNaoNumerico     // the value is not a number
    | ValorAcimaDoMaximo   // the value exceeds 15000
    | ValorAbaixoDoMinimo  // the value is below -2000

  datatype Option<T> = None | Some(value: T)

  const ValorMaximo: int := 15000
  const ValorMinimo: int := -2000

  /** Where a check stands in the order of evaluation. */
  function Posicao(m: Motivo): nat {
    match m
    case CpfNaoNumerico => 0
    case CpfInvalido => 1
    case ValorNaoNumerico => 2
    case ValorAcimaDoMaximo => 3
    case ValorAbaixoDoMinimo => 4
  }

  /** What each check demands of the entry. The source never reaches the two
      range checks with a non-number, so they are defined to pass it. */
  predicate Passa(m: Motivo, e: Entrada) {
    match m
    case CpfNaoNumerico => e.cpf != [] && SoDigitos(e.cpf)
    case CpfInvalido => CpfValido(e.cpf)
    case ValorNaoNumerico => e.valor.Num?
    case ValorAcimaDoMaximo => !(e.valor.Num? && e.valor.n > ValorMaximo)
    case ValorAbaixoDoMinimo => !(e.valor.Num? && e.valor.n < ValorMinimo)
  }

  /** `validarEntradaDeDados`: `None` (the source's `null`) when every check
      passes, otherwise the reason of the first check that fails. */
  function ValidarEntradaDeDados(e: Entrada): (r: Option<Motivo>)
    ensures r == None <==> forall m :: Passa(m, e)
    ensures r.Some? ==>
      !Passa(r.value, e) && forall m :: Posicao(m) < Posicao(r.value) ==> Passa(m, e)
  {
    if !(e.cpf != [] && SoDigitos(e.cpf)) then
      assert !Passa(CpfNaoNumerico, e);
      Some(CpfNaoNumerico)
    else if !CpfValido(e.cpf) then
      assert !Passa(CpfInvalido, e);
      Some(CpfInvalido)
    else if !e.valor.Num? then
      assert !Passa(ValorNaoNumerico, e);
      Some(ValorNaoNumerico)
    else if e.valor.n > ValorMaximo then
      assert !Passa(ValorAcimaDoMaximo, e);
      Some(ValorAcimaDoMaximo)
    else if e.valor.n < ValorMinimo then
      assert !Passa(ValorAbaixoDoMinimo, e);
      Some(ValorAbaixoDoMinimo)
    else None
  }

  /** An accepted entry carries exactly eleven digits that are not one digit
      repeated and whose check digits agree, and a value in [-2000, 15000]. */
  lemma EntradaAceita(e: Entrada)
    requires ValidarEntradaDeDados(e) == None
    ensures |e.cpf| == 11 && SoDigitos(e.cpf) && !Repetido(e.cpf)
    ensures e.cpf[9..] == DigitosVerificadores(e.cpf[..9])
    ensures e.valor.Num? && ValorMinimo <= e.valor.n <= ValorMaximo
  {
    assert Passa(CpfNaoNumerico, e) && Passa(CpfInvalido, e);
    CpfValidoSeDigitosVerificadores(e.cpf);
  }

  /** A CPF with at least one digit that passes the digits-only check but does
      not have eleven of them is reported as invalid, whatever the value. */
  lemma CpfCurtoInvalido(e: Entrada)
    requires e.cpf != [] && SoDigitos(e.cpf) && |e.cpf| != 11
    ensures ValidarEntradaDeDados(e) == Some(CpfInvalido)
  {
  }

  // As in `Cpf`, the examples with the valid CPF take it as a parameter fixed
  // by `requires`, so that `ExemploValido` can be applied to it by name.

  /** A valid CPF with a value inside the range is accepted. */
  lemma ExemploAceito(cpf: string)
    requires cpf == "52998224725"
    ensures ValidarEntradaDeDados(Entrada(cpf, Num(100))) == None
  {
    ExemploValido(cpf);
  }

  /** A valid CPF with a value outside the range, or no number at all, is
      rejected for the value. */
  lemma ExemplosDeValor(cpf: string)
    requires cpf == "52998224725"
    ensures ValidarEntradaDeDados(Entrada(cpf, Num(15001))) == Some(ValorAcimaDoMaximo)
    ensures ValidarEntradaDeDados(Entrada(cpf, Num(-2001))) == Some(ValorAbaixoDoMinimo)
    ensures ValidarEntradaDeDados(Entrada(cpf, NaoNumerico)) == Some(ValorNaoNumerico)
  {
    ExemploValido(cpf);
  }

  /** Three digits are digits, but not a CPF. */
  lemma ExemploCpfCurto()
    ensures ValidarEntradaDeDados(Entrada("123", Num(100))) == Some(CpfInvalido)
  {
    CpfCurtoInvalido(Entrada("123", Num(100)));
  }

  /** The punctuated form of a valid CPF fails the digits-only check. */
  lemma ExemploCpfFormatado(cpf: string)
    requires cpf == "52998224725"
    ensures ValidarEntradaDeDados(Entrada(Formatado(cpf), Num(100))) == Some(CpfNaoNumerico)
  {
    assert Formatado(cpf)[3] == '.';
  }
}
