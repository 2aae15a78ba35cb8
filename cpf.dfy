/**
  The CPF check-digit algorithm (Brazilian taxpayer number, modulo 11).

  A CPF has eleven decimal digits; the last two are check digits computed from
  the ones before them by weighted sums.  `CpfValido` is the reference
  definition of the predicate the service implements and `ValidarCpf` is the
  service's imperative algorithm, proved to compute it.
 */
module Cpf {

  // ---------------------------------------------------------------------------
  // Characters and digits
  // ---------------------------------------------------------------------------

  /** The characters matched by `\d` in a JavaScript regular expression without
      the `u` flag: the ASCII digits only. */
  predicate EhDigito(c: char) {
    '0' <= c <= '9'
  }

  predicate SoDigitos(s: string) {
    forall i :: 0 <= i < |s| ==> EhDigito(s[i])
  }

  /** `parseInt` of a one-character digit string. */
  function ValorDigito(c: char): (v: int)
    requires EhDigito(c)
    ensures 0 <= v <= 9
    ensures CaractereDigito(v) == c
  {
    c as int - '0' as int
  }

  /** The digit character of a value in 0..9 (inverse of `ValorDigito`). */
  function CaractereDigito(v: int): (c: char)
    requires 0 <= v <= 9
    ensures EhDigito(c)
  {
    ('0' as int + v) as char
  }

  /** `s.replace(/[^\d]+/g, '')`: the digits of `s`, in their order. */
  function RemoverNaoDigitos(s: string): (r: string)
    ensures SoDigitos(r)
    ensures |r| <= |s|
    ensures SoDigitos(s) ==> r == s
  {
    if s == [] then []
    else
      var resto := RemoverNaoDigitos(s[1..]);
      assert s == [s[0]] + s[1..];
      if EhDigito(s[0]) then [s[0]] + resto else resto
  }

  /** Stripping distributes over concatenation, so together with the
      one-character cases it determines `RemoverNaoDigitos` completely. */
  lemma {:induction false} RemoverNaoDigitosConcatena(a: string, b: string)
    ensures RemoverNaoDigitos(a + b) == RemoverNaoDigitos(a) + RemoverNaoDigitos(b)
  {
    if a == [] {
      assert a + b == b;
    } else {
      assert (a + b)[1..] == a[1..] + b;
      RemoverNaoDigitosConcatena(a[1..], b);
    }
  }

  // ---------------------------------------------------------------------------
  // The ten strings rejected outright
  // ---------------------------------------------------------------------------

  /** The literal list of known-invalid CPFs the service compares against. */
  predicate ConhecidoInvalido(s: string) {
    s == "00000000000" || s == "11111111111" || s == "22222222222" ||
    s == "33333333333" || s == "44444444444" || s == "55555555555" ||
    s == "66666666666" || s == "77777777777" || s == "88888888888" ||
    s == "99999999999"
  }

  /** Eleven copies of one character. */
  predicate Repetido(s: string) {
    |s| == 11 && forall i :: 0 <= i < 11 ==> s[i] == s[0]
  }

  /** The ten literals are exactly the eleven-character strings made of one
      repeated digit. */
  lemma ConhecidoInvalidoSeERepetido(s: string)
    ensures ConhecidoInvalido(s) <==> Repetido(s) && EhDigito(s[0])
  {
    if Repetido(s) && EhDigito(s[0]) {
      var c := s[0];
      assert s == [c, c, c, c, c, c, c, c, c, c, c];
      if c == '0' { assert s == "00000000000"; }
      else if c == '1' { assert s == "11111111111"; }
      else if c == '2' { assert s == "22222222222"; }
      else if c == '3' { assert s == "33333333333"; }
      else if c == '4' { assert s == "44444444444"; }
      else if c == '5' { assert s == "55555555555"; }
      else if c == '6' { assert s == "66666666666"; }
      else if c == '7' { assert s == "77777777777"; }
      else if c == '8' { assert s == "88888888888"; }
      else { assert s == "99999999999"; }
    }
  }

  // ---------------------------------------------------------------------------
  // Check digits
  // ---------------------------------------------------------------------------

  /** Sum over i < n of digit(d[i]) * (peso - i). */
  function SomaPonderada(d: string, n: nat, peso: int): int
    requires n <= |d| && SoDigitos(d)
  {
    if n == 0 then 0
    else SomaPonderada(d, n - 1, peso) + ValorDigito(d[n - 1]) * (peso - (n - 1))
  }

  /** The weighted sum reads only the first `n` characters. */
  lemma {:induction false} SomaPonderadaLePrefixo(d: string, e: string, n: nat, peso: int)
    requires n <= |d| && n <= |e| && SoDigitos(d) && SoDigitos(e)
    requires d[..n] == e[..n]
    ensures SomaPonderada(d, n, peso) == SomaPonderada(e, n, peso)
  {
    if n > 0 {
      assert d[n - 1] == d[..n][n - 1] == e[..n][n - 1] == e[n - 1];
      assert d[..n - 1] == d[..n][..n - 1] == e[..n][..n - 1] == e[..n - 1];
      SomaPonderadaLePrefixo(d, e, n - 1, peso);
    }
  }

  /** `rev = 11 - soma % 11`, with 10 and 11 mapped to 0: the digit that
      makes soma + rev a multiple of 11, or 0 when that digit would be 10. */
  function DigitoVerificador(soma: int): (rev: int)
    ensures 0 <= rev <= 9
    ensures (soma + rev) % 11 == 0 || (rev == 0 && soma % 11 == 1)
  {
    var rev := 11 - soma % 11;
    if rev == 10 || rev == 11 then 0 else rev
  }

  /** Both check digits of an eleven-digit string agree with its weighted sums. */
  predicate DigitosConferem(d: string)
    requires |d| == 11 && SoDigitos(d)
  {
    DigitoVerificador(SomaPonderada(d, 9, 10)) == ValorDigito(d[9]) &&
    DigitoVerificador(SomaPonderada(d, 10, 11)) == ValorDigito(d[10])
  }

  /** The reference definition of a valid CPF. */
  predicate CpfValido(cpf: string) {
    var d := RemoverNaoDigitos(cpf);
    d != [] && |d| == 11 && !Repetido(d) && DigitosConferem(d)
  }

  /** The two check digits the algorithm expects after nine digits. */
  function DigitosVerificadores(p: string): (r: string)
    requires |p| == 9 && SoDigitos(p)
    ensures |r| == 2 && SoDigitos(r)
  {
    var d1 := DigitoVerificador(SomaPonderada(p, 9, 10));
    var p1 := p + [CaractereDigito(d1)];
    var d2 := DigitoVerificador(SomaPonderada(p1, 10, 11));
    [CaractereDigito(d1), CaractereDigito(d2)]
  }

  /** On eleven digits, the two checks hold exactly when the last two digits
      are the check digits of the first nine. */
  lemma DigitosConferemSeDigitosVerificadores(d: string)
    requires |d| == 11 && SoDigitos(d)
    ensures DigitosConferem(d) <==> d[9..] == DigitosVerificadores(d[..9])
  {
    var p := d[..9];
    var d1 := DigitoVerificador(SomaPonderada(p, 9, 10));
    var p1 := p + [CaractereDigito(d1)];
    var d2 := DigitoVerificador(SomaPonderada(p1, 10, 11));
    assert d[..9] == p[..9];
    SomaPonderadaLePrefixo(d, p, 9, 10);
    if d[9..] == DigitosVerificadores(p) {
      assert d[9] == d[9..][0] == CaractereDigito(d1);
      assert d[10] == d[9..][1] == CaractereDigito(d2);
      assert d[..10] == p1[..10];
      SomaPonderadaLePrefixo(d, p1, 10, 11);
    }
    if DigitosConferem(d) {
      assert CaractereDigito(d1) == d[9];
      assert d[..10] == p1[..10];
      SomaPonderadaLePrefixo(d, p1, 10, 11);
      assert CaractereDigito(d2) == d[10];
      assert d[9..] == [d[9], d[10]];
    }
  }

  /** A string is a valid CPF exactly when its digits are eleven, not one digit
      repeated, and end with the check digits of their first nine. */
  lemma CpfValidoSeDigitosVerificadores(cpf: string)
    ensures var d := RemoverNaoDigitos(cpf);
      CpfValido(cpf) <==>
        |d| == 11 && !Repetido(d) && d[9..] == DigitosVerificadores(d[..9])
  {
    var d := RemoverNaoDigitos(cpf);
    if |d| == 11 {
      ConhecidoInvalidoSeERepetido(d);
      DigitosConferemSeDigitosVerificadores(d);
    }
  }

  /** An all-digit string is valid when its digits are eleven, not one digit
      repeated, and both checks hold. */
  lemma CpfValidoSeDigitosConferem(d: string)
    requires SoDigitos(d) && |d| == 11 && !Repetido(d) && DigitosConferem(d)
    ensures CpfValido(d)
  {
    ConhecidoInvalidoSeERepetido(d);
  }

  /** Rejection by shape: no digits, a digit count other than eleven, or one
      digit repeated eleven times. */
  lemma FormaInvalidaRejeitada(cpf: string)
    ensures var d := RemoverNaoDigitos(cpf);
      (d == [] || |d| != 11 || Repetido(d)) ==> !CpfValido(cpf)
  {
    var d := RemoverNaoDigitos(cpf);
    if |d| == 11 && Repetido(d) {
      ConhecidoInvalidoSeERepetido(d);
    }
  }

  /** Changing the last check digit of a valid all-digit CPF invalidates it. */
  lemma {:induction false} UltimoDigitoAlteradoInvalida(cpf: string, c: char)
    requires SoDigitos(cpf) && CpfValido(cpf)
    requires EhDigito(c) && c != cpf[10]
    ensures !CpfValido(cpf[10 := c])
  {
    var e := cpf[10 := c];
    assert SoDigitos(e);
    assert cpf[..10] == e[..10];
    SomaPonderadaLePrefixo(cpf, e, 10, 11);
    assert ValorDigito(e[10]) != ValorDigito(cpf[10]) by {
      assert CaractereDigito(ValorDigito(e[10])) == c;
    }
  }

  /** Changing the first check digit of a valid all-digit CPF invalidates it. */
  lemma {:induction false} PrimeiroDigitoAlteradoInvalida(cpf: string, c: char)
    requires SoDigitos(cpf) && CpfValido(cpf)
    requires EhDigito(c) && c != cpf[9]
    ensures !CpfValido(cpf[9 := c])
  {
    var e := cpf[9 := c];
    assert SoDigitos(e);
    assert cpf[..9] == e[..9];
    SomaPonderadaLePrefixo(cpf, e, 9, 10);
    assert ValorDigito(e[9]) != ValorDigito(cpf[9]) by {
      assert CaractereDigito(ValorDigito(e[9])) == c;
    }
  }

  // The worked examples below take the CPF as a parameter fixed by `requires`
  // rather than writing the literal in the `ensures`. The proof can then
  // name it and unfold the weighted sums one digit at a time. Stated over the
  // literal directly, the solver unfolds every occurrence and its cost
  // depends on the random seed.

  /** Worked example: 5*10 + 2*9 + ... + 7*2 = 295 and 295 % 11 = 9 give the
      first check digit 2; the second sum 347 with 347 % 11 = 6 gives 5. */
  lemma ExemploDigitosConferem(d: string)
    requires d == "52998224725"
    ensures SoDigitos(d) && DigitosConferem(d)
  {
    PrimeiraSomaDoExemplo(d);
    SegundaSomaDoExemplo(d);
    assert DigitoVerificador(295) == 2 && ValorDigito(d[9]) == 2;
    assert DigitoVerificador(347) == 5 && ValorDigito(d[10]) == 5;
  }

  /** The first weighted sum of the worked example, digit by digit. */
  lemma PrimeiraSomaDoExemplo(d: string)
    requires d == "52998224725"
    ensures SoDigitos(d) && SomaPonderada(d, 9, 10) == 295
  {
    assert SoDigitos(d);
    assert SomaPonderada(d, 1, 10) == 0 + 50;
    assert SomaPonderada(d, 2, 10) == 50 + 18;
    assert SomaPonderada(d, 3, 10) == 68 + 72;
    assert SomaPonderada(d, 4, 10) == 140 + 63;
    assert SomaPonderada(d, 5, 10) == 203 + 48;
    assert SomaPonderada(d, 6, 10) == 251 + 10;
    assert SomaPonderada(d, 7, 10) == 261 + 8;
    assert SomaPonderada(d, 8, 10) == 269 + 12;
    assert SomaPonderada(d, 9, 10) == 281 + 14;
  }

  /** The second weighted sum of the worked example, digit by digit. */
  lemma SegundaSomaDoExemplo(d: string)
    requires d == "52998224725"
    ensures SoDigitos(d) && SomaPonderada(d, 10, 11) == 347
  {
    assert SoDigitos(d);
    assert SomaPonderada(d, 1, 11) == 0 + 55;
    assert SomaPonderada(d, 2, 11) == 55 + 20;
    assert SomaPonderada(d, 3, 11) == 75 + 81;
    assert SomaPonderada(d, 4, 11) == 156 + 72;
    assert SomaPonderada(d, 5, 11) == 228 + 56;
    assert SomaPonderada(d, 6, 11) == 284 + 12;
    assert SomaPonderada(d, 7, 11) == 296 + 10;
    assert SomaPonderada(d, 8, 11) == 306 + 16;
    assert SomaPonderada(d, 9, 11) == 322 + 21;
    assert SomaPonderada(d, 10, 11) == 343 + 4;
  }

  lemma ExemploValido(d: string)
    requires d == "52998224725"
    ensures CpfValido(d)
  {
    ExemploDigitosConferem(d);
    assert d[1] != d[0];
    CpfValidoSeDigitosConferem(d);
  }

  /** A separator after a run of digits is dropped and the digits kept. */
  lemma {:induction false} RemoverNaoDigitosSeparador(a: string, x: char, b: string)
    requires SoDigitos(a) && !EhDigito(x)
    ensures RemoverNaoDigitos(a + [x] + b) == a + RemoverNaoDigitos(b)
  {
    RemoverNaoDigitosConcatena(a, [x] + b);
    assert a + [x] + b == a + ([x] + b);
    assert ([x] + b)[1..] == b;
  }

  /** The punctuated form `NNN.NNN.NNN-NN` of an eleven-digit string strips
      back to it, so both get the same verdict. */
  lemma FormatadoEquivale(d: string)
    requires |d| == 11 && SoDigitos(d)
    ensures RemoverNaoDigitos(Formatado(d)) == d
    ensures CpfValido(Formatado(d)) == CpfValido(d)
  {
    var p, q, r, t := d[..3], d[3..6], d[6..9], d[9..];
    assert d == p + (q + (r + t)) by {
      assert d[6..] == r + t;
      assert d[3..] == q + d[6..];
      assert d == p + d[3..];
    }
    assert SoDigitos(p) && SoDigitos(q) && SoDigitos(r) && SoDigitos(t);
    var f3 := r + ['-'] + t;
    var f2 := q + ['.'] + f3;
    assert Formatado(d) == p + ['.'] + f2;
    RemoverNaoDigitosSeparador(r, '-', t);
    RemoverNaoDigitosSeparador(q, '.', f3);
    RemoverNaoDigitosSeparador(p, '.', f2);
  }

  /** The punctuated form of an eleven-character string. */
  function Formatado(d: string): string
    requires |d| == 11
  {
    d[..3] + ['.'] + d[3..6] + ['.'] + d[6..9] + ['-'] + d[9..]
  }

  /** The worked example, punctuated, is valid too. */
  lemma ExemploFormatado(d: string)
    requires d == "52998224725"
    ensures CpfValido(Formatado(d))
  {
    ExemploValido(d);
    FormatadoEquivale(d);
  }

  /** Altering the last digit of the worked example invalidates it. */
  lemma ExemploInvalido(cpf: string)
    requires cpf == "52998224726"
    ensures !CpfValido(cpf)
  {
    var d := cpf[10 := '5'];
    ExemploValido(d);
    UltimoDigitoAlteradoInvalida(d, '6');
    assert d[10 := '6'] == cpf;
  }

  // ---------------------------------------------------------------------------
  // The service's algorithm
  // ---------------------------------------------------------------------------

  /** `validarCPF`: strip non-digits, reject by shape, then recompute both
      check digits. Never fails: every input gets a verdict. */
  method ValidarCpf(entrada: string) returns (ok: bool)
    ensures ok == CpfValido(entrada)
  {
    var cpf := RemoverNaoDigitos(entrada);
    if cpf == [] {
      return false;
    }
    if |cpf| != 11 || ConhecidoInvalido(cpf) {
      ConhecidoInvalidoSeERepetido(cpf);
      return false;
    }
    ConhecidoInvalidoSeERepetido(cpf);
    ok := ConferirDigitos(cpf);
  }

  /** The two accumulating loops of `validarCPF`, one per check digit. */
  method ConferirDigitos(cpf: string) returns (ok: bool)
    requires |cpf| == 11 && SoDigitos(cpf)
    ensures ok == DigitosConferem(cpf)
  {
    // first check digit
    var add := 0;
    for i := 0 to 9
      invariant add == SomaPonderada(cpf, i, 10)
    {
      add := add + ValorDigito(cpf[i]) * (10 - i);
    }
    var rev := 11 - add % 11;
    if rev == 10 || rev == 11 {
      rev := 0;
    }
    if rev != ValorDigito(cpf[9]) {
      return false;
    }
    // second check digit
    add := 0;
    for i := 0 to 10
      invariant add == SomaPonderada(cpf, i, 11)
    {
      add := add + ValorDigito(cpf[i]) * (11 - i);
    }
    rev := 11 - add % 11;
    if rev == 10 || rev == 11 {
      rev := 0;
    }
    return rev == ValorDigito(cpf[10]);
  }
}
