/**
  The ledger reports on small ledgers worked out by hand. The CPFs are any
  distinct strings, since the model only compares them for equality. The
  service agrees with these results for eleven-digit CPFs, the only ones its
  gate admits. Keys such as `"constructor"` or `"2"` behave differently in
  its plain-object dictionaries.
 */
module Exemplos {
  import opened Ordenacao
  import opened Contabilidade

  lemma FiltrarUm(cpf: string, e: Lancamento)
    ensures Filtrar(cpf, [e]) == if e.cpf == cpf then [e] else []
  {
    assert [e][1..] == [];
  }

  /** Filtering a ledger of three entries, one entry at a time. */
  lemma FiltrarTres(cpf: string, x: Lancamento, y: Lancamento, z: Lancamento)
    ensures Filtrar(cpf, [x, y, z]) == Filtrar(cpf, [x]) + Filtrar(cpf, [y]) + Filtrar(cpf, [z])
  {
    assert [x, y, z] == [x] + [y] + [z];
    FiltrarConcatena(cpf, [x], [y]);
    FiltrarConcatena(cpf, [x] + [y], [z]);
  }

  /** The CPFs of two entries, in first-seen order. */
  lemma CpfsDois(x: Lancamento, y: Lancamento)
    ensures Cpfs([x, y]) == if y.cpf == x.cpf then [x.cpf] else [x.cpf, y.cpf]
  {
    CpfsAcrescentar([x], y);
    CpfsAcrescentar([], x);
    assert [x, y] == [x] + [y] && [x] == [] + [x];
  }

  /** The CPFs of three entries: those of the first two, then the third's
      if it is new. */
  lemma CpfsTres(x: Lancamento, y: Lancamento, z: Lancamento)
    ensures Cpfs([x, y, z]) == var p := Cpfs([x, y]); if z.cpf in p then p else p + [z.cpf]
  {
    assert [x, y, z] == [x, y] + [z];
    CpfsAcrescentar([x, y], z);
  }

  lemma SomaDois(x: Lancamento, y: Lancamento)
    ensures Soma([x, y]) == x.valor + y.valor
  {
    assert [x, y][1..] == [y] && [y][1..] == [];
    assert Soma([y]) == y.valor + Soma([]);
  }

  lemma SomaTres(x: Lancamento, y: Lancamento, z: Lancamento)
    ensures Soma([x, y, z]) == x.valor + y.valor + z.valor
  {
    assert [x, y, z][1..] == [y, z];
    SomaDois(y, z);
  }

  /** Entries of CPFs a, b, a list a, then b. */
  lemma CpfsAlternados(x: Lancamento, y: Lancamento, z: Lancamento)
    requires x.cpf == z.cpf && x.cpf != y.cpf
    ensures Cpfs([x, y, z]) == [x.cpf, y.cpf]
  {
    CpfsTres(x, y, z);
    CpfsDois(x, y);
  }

  /** Entries of CPFs a, b, a filter to the first and last, or the middle. */
  lemma FiltrarAlternados(x: Lancamento, y: Lancamento, z: Lancamento)
    requires x.cpf == z.cpf && x.cpf != y.cpf
    ensures Filtrar(x.cpf, [x, y, z]) == [x, z]
    ensures Filtrar(y.cpf, [x, y, z]) == [y]
  {
    FiltrarTres(x.cpf, x, y, z);
    FiltrarTres(y.cpf, x, y, z);
    FiltrarUm(x.cpf, x); FiltrarUm(x.cpf, y); FiltrarUm(x.cpf, z);
    FiltrarUm(y.cpf, x); FiltrarUm(y.cpf, y); FiltrarUm(y.cpf, z);
  }

  /** Two entries of one CPF are added up; the CPFs come out in first-seen
      order. */
  lemma ExemploSaldos(a: string, b: string)
    requires a != b
    ensures Saldos([Lancamento(a, 100), Lancamento(b, 10), Lancamento(a, -50)])
      == [Saldo(a, 50), Saldo(b, 10)]
  {
    var x, y, z := Lancamento(a, 100), Lancamento(b, 10), Lancamento(a, -50);
    var l := [x, y, z];
    CpfsAlternados(x, y, z);
    FiltrarAlternados(x, y, z);
    SomaDois(x, z);
    assert SaldoDe(a, l) == 50;
    assert Soma([y]) == 10 by {
      assert [y][1..] == [];
    }
    assert SaldoDe(b, l) == 10;
    var r := Saldos(l);
    assert |r| == 2 && r[0] == Saldo(a, 50) && r[1] == Saldo(b, 10);
  }

  lemma OrdenarUm<T>(x: T, chave: T -> real)
    ensures Ordenar([x], chave) == [x]
  {
    assert [x][1..] == [];
  }

  lemma OrdenarDois<T>(x: T, y: T, chave: T -> real)
    requires chave(x) <= chave(y)
    ensures Ordenar([x, y], chave) == [x, y]
  {
    assert [x, y][1..] == [y];
    OrdenarUm(y, chave);
  }

  /** The smallest and largest entries of one CPF, other CPFs ignored. */
  lemma ExemploMaiorMenor(a: string, b: string)
    requires a != b
    ensures RecuperarMaiorMenorLancamentos(a,
      [Lancamento(a, 5), Lancamento(b, -9), Lancamento(a, 7)])
      == [Lancamento(a, 5), Lancamento(a, 7)]
  {
    var x, y, z := Lancamento(a, 5), Lancamento(b, -9), Lancamento(a, 7);
    FiltrarAlternados(x, y, z);
    OrdenarDois(x, z, ChaveValor);
  }

  /** Filtering by the only CPF of a ledger keeps all of it. */
  lemma {:induction false} FiltrarTodos(cpf: string, l: seq<Lancamento>)
    requires forall i :: 0 <= i < |l| ==> l[i].cpf == cpf
    ensures Filtrar(cpf, l) == l
  {
    if l != [] {
      FiltrarTodos(cpf, l[1..]);
      assert l == [l[0]] + l[1..];
    }
  }

  /** Three entries of one CPF list that CPF once. */
  lemma CpfsUnico(x: Lancamento, y: Lancamento, z: Lancamento)
    requires x.cpf == y.cpf == z.cpf
    ensures Cpfs([x, y, z]) == [x.cpf]
  {
    CpfsTres(x, y, z);
    CpfsDois(x, y);
  }

  /** A ledger with one CPF and three entries summing to -8. */
  lemma LancamentosDoExemplo(a: string)
    ensures var l := [Lancamento(a, -5), Lancamento(a, -3), Lancamento(a, 0)];
      Cpfs(l) == [a] && Filtrar(a, l) == l && Soma(l) == -8
  {
    var x, y, z := Lancamento(a, -5), Lancamento(a, -3), Lancamento(a, 0);
    CpfsUnico(x, y, z);
    FiltrarTodos(a, [x, y, z]);
    SomaTres(x, y, z);
  }

  /** The exact averages of that ledger. */
  lemma MediasDoExemplo(a: string)
    ensures MediasExatas([Lancamento(a, -5), Lancamento(a, -3), Lancamento(a, 0)])
      == [MediaExata(a, -8, 3)]
  {
    var l := [Lancamento(a, -5), Lancamento(a, -3), Lancamento(a, 0)];
    LancamentosDoExemplo(a);
    assert SaldoDe(a, l) == -8 && NumLancamentos(a, l) == 3;
    var m := MediasExatas(l);
    assert |m| == 1 && m[0] == MediaExata(a, -8, 3);
  }

  /** A sum of -8 over three entries averages -2.67, reported as -2. */
  lemma ExemploMedia(a: string)
    ensures MaioresMedias([Lancamento(a, -5), Lancamento(a, -3), Lancamento(a, 0)])
      == [Media(a, -2)]
  {
    var l := [Lancamento(a, -5), Lancamento(a, -3), Lancamento(a, 0)];
    MediasDoExemplo(a);
    OrdenarUm(MediaExata(a, -8, 3), ChaveMedia);
    assert Truncar(-8, 3) == -2;
    var r := MaioresMedias(l);
    assert |r| == 1 && r[0] == Media(a, -2);
  }
}
