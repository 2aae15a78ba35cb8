/**
  The ledger reports: balances per CPF, the extreme entries of one CPF, and the
  three largest balances and averages.

  Every report is computed from an in-memory sequence of admitted entries.  The
  service accumulates into a fresh dictionary keyed by CPF; the model keeps that
  dictionary as a `map` plus the sequence of its keys in insertion order, which
  is the order `Object.keys`/`Object.entries` enumerate eleven-digit keys in.
 */
module Contabilidade {
  import opened Ordenacao

  // ---------------------------------------------------------------------------
  // Data
  // ---------------------------------------------------------------------------

  /** An admitted entry (a `lancamento`): its value passed the gate's numeric
      check, so it is a number; amounts are whole units. */
  datatype Lancamento = Lancamento(cpf: string, valor: int)

  /** A `{ cpf, saldo }` report row. */
  datatype Saldo = Saldo(cpf: string, saldo: int)

  /** A `{ cpf, media }` report row; `media` is already truncated. */
  datatype Media = Media(cpf: string, media: int)

  /** The per-CPF accumulator `{ saldo, numLancamentos }`. */
  datatype Acumulado = Acumulado(saldo: int, numLancamentos: nat)

  type Positivo = n: int | n > 0 witness 1

  /** A `{ cpf, media }` row before truncation, with the average kept exact as
      a sum over a positive count. */
  datatype MediaExata = MediaExata(cpf: string, saldo: int, numLancamentos: Positivo)

  function Min(a: int, b: int): int {
    if a <= b then a else b
  }

  predicate Distintos(k: seq<string>) {
    forall i, j :: 0 <= i < j < |k| ==> k[i] != k[j]
  }

  // ---------------------------------------------------------------------------
  // Reference definitions: filtering, sums, counts, first-seen order
  // ---------------------------------------------------------------------------

  /** `l.filter(e => e.cpf === cpf)`. */
  function Filtrar(cpf: string, l: seq<Lancamento>): (r: seq<Lancamento>)
    ensures |r| <= |l|
  {
    if l == [] then []
    else (if l[0].cpf == cpf then [l[0]] else []) + Filtrar(cpf, l[1..])
  }

  /** The filtered entries are exactly the entries of that CPF. */
  lemma {:induction false} FiltrarMembros(cpf: string, l: seq<Lancamento>)
    ensures forall e :: e in Filtrar(cpf, l) <==> e in l && e.cpf == cpf
  {
    if l != [] {
      assert l == [l[0]] + l[1..];
      FiltrarMembros(cpf, l[1..]);
    }
  }

  lemma {:induction false} FiltrarConcatena(cpf: string, a: seq<Lancamento>, b: seq<Lancamento>)
    ensures Filtrar(cpf, a + b) == Filtrar(cpf, a) + Filtrar(cpf, b)
  {
    if a == [] {
      assert a + b == b;
    } else {
      var h := if a[0].cpf == cpf then [a[0]] else [];
      assert (a + b)[0] == a[0];
      assert (a + b)[1..] == a[1..] + b;
      assert Filtrar(cpf, a + b) == h + Filtrar(cpf, a[1..] + b);
      FiltrarConcatena(cpf, a[1..], b);
      assert h + (Filtrar(cpf, a[1..]) + Filtrar(cpf, b)) == (h + Filtrar(cpf, a[1..])) + Filtrar(cpf, b);
    }
  }

  /** The sum of the values of a sequence of entries. */
  function Soma(l: seq<Lancamento>): int {
    if l == [] then 0 else l[0].valor + Soma(l[1..])
  }

  lemma {:induction false} SomaConcatena(a: seq<Lancamento>, b: seq<Lancamento>)
    ensures Soma(a + b) == Soma(a) + Soma(b)
  {
    if a == [] {
      assert a + b == b;
    } else {
      assert (a + b)[0] == a[0];
      assert (a + b)[1..] == a[1..] + b;
      SomaConcatena(a[1..], b);
    }
  }

  /** A CPF's balance: the sum of the values of its entries. */
  function SaldoDe(cpf: string, l: seq<Lancamento>): int {
    Soma(Filtrar(cpf, l))
  }

  /** How many entries a CPF has. */
  function NumLancamentos(cpf: string, l: seq<Lancamento>): nat {
    |Filtrar(cpf, l)|
  }

  /** A CPF's exact average, for CPFs that have entries. */
  function MediaDe(cpf: string, l: seq<Lancamento>): real {
    var n := NumLancamentos(cpf, l);
    if n == 0 then 0.0 else SaldoDe(cpf, l) as real / n as real
  }

  /** Appending one entry adds its value and one to its own CPF only. */
  lemma AcrescentarLancamento(cpf: string, a: seq<Lancamento>, e: Lancamento)
    ensures SaldoDe(cpf, a + [e]) == SaldoDe(cpf, a) + (if e.cpf == cpf then e.valor else 0)
    ensures NumLancamentos(cpf, a + [e]) == NumLancamentos(cpf, a) + (if e.cpf == cpf then 1 else 0)
  {
    FiltrarConcatena(cpf, a, [e]);
    assert [e][1..] == [];
    SomaConcatena(Filtrar(cpf, a), Filtrar(cpf, [e]));
  }

  /** The distinct CPFs of `l` in order of first occurrence. */
  function Cpfs(l: seq<Lancamento>): (r: seq<string>)
    ensures Distintos(r)
  {
    if l == [] then []
    else
      var p := Cpfs(l[..|l| - 1]);
      var c := l[|l| - 1].cpf;
      if c in p then p else p + [c]
  }

  /** `Cpfs` lists exactly the CPFs that have an entry. */
  lemma {:induction false} CpfsMembros(l: seq<Lancamento>)
    ensures forall c :: c in Cpfs(l) <==> exists e :: e in l && e.cpf == c
  {
    if l != [] {
      var a := l[..|l| - 1];
      assert l == a + [l[|l| - 1]];
      assert forall e :: e in l <==> e in a || e == l[|l| - 1];
      CpfsMembros(a);
    }
  }

  /** A CPF that appears in the ledger has at least one entry. */
  lemma CpfPresente(cpf: string, l: seq<Lancamento>)
    requires cpf in Cpfs(l)
    ensures NumLancamentos(cpf, l) > 0
  {
    CpfsMembros(l);
    FiltrarMembros(cpf, l);
    var e :| e in l && e.cpf == cpf;
    assert e in Filtrar(cpf, l);
  }

  /** A CPF absent from the ledger has no entry. */
  lemma CpfAusente(cpf: string, l: seq<Lancamento>)
    requires cpf !in Cpfs(l)
    ensures Filtrar(cpf, l) == []
  {
    CpfsMembros(l);
    FiltrarMembros(cpf, l);
    if Filtrar(cpf, l) != [] {
      assert Filtrar(cpf, l)[0] in Filtrar(cpf, l);
    }
  }

  /** Appending an entry adds its CPF at the end if it is new. */
  lemma CpfsAcrescentar(a: seq<Lancamento>, e: Lancamento)
    ensures Cpfs(a + [e]) == if e.cpf in Cpfs(a) then Cpfs(a) else Cpfs(a) + [e.cpf]
  {
    assert (a + [e])[..|a + [e]| - 1] == a;
  }

  /** The index of the first entry of `cpf`, or |l| when it has none. */
  function PrimeiroIndice(cpf: string, l: seq<Lancamento>): (k: nat)
    ensures k <= |l|
    ensures k < |l| ==> l[k].cpf == cpf
  {
    if l == [] then 0
    else if l[0].cpf == cpf then 0
    else 1 + PrimeiroIndice(cpf, l[1..])
  }

  /** No entry before the first one has that CPF. */
  lemma {:induction false} PrimeiroIndiceMinimo(cpf: string, l: seq<Lancamento>)
    ensures forall m :: 0 <= m < PrimeiroIndice(cpf, l) ==> l[m].cpf != cpf
  {
    if l != [] && l[0].cpf != cpf {
      PrimeiroIndiceMinimo(cpf, l[1..]);
      assert forall m :: 1 <= m < |l| ==> l[m] == l[1..][m - 1];
    }
  }

  lemma {:induction false} PrimeiroIndiceAcrescentar(cpf: string, a: seq<Lancamento>, e: Lancamento)
    ensures PrimeiroIndice(cpf, a + [e]) ==
      if PrimeiroIndice(cpf, a) < |a| then PrimeiroIndice(cpf, a)
      else if e.cpf == cpf then |a| else |a| + 1
  {
    if a != [] {
      assert (a + [e])[0] == a[0];
      assert (a + [e])[1..] == a[1..] + [e];
      PrimeiroIndiceAcrescentar(cpf, a[1..], e);
    }
  }

  /** A CPF of the ledger has its first entry inside it; any other string has
      none. */
  lemma PrimeiroIndiceDentro(cpf: string, l: seq<Lancamento>)
    ensures PrimeiroIndice(cpf, l) < |l| <==> cpf in Cpfs(l)
  {
    CpfsMembros(l);
    var k := PrimeiroIndice(cpf, l);
    if k < |l| {
      assert l[k] in l;
    } else if cpf in Cpfs(l) {
      PrimeiroIndiceMinimo(cpf, l);
    }
  }

  /** `Cpfs` lists the CPFs in the order their first entries occur. */
  lemma {:induction false} CpfsEmOrdemDePrimeiraOcorrencia(l: seq<Lancamento>)
    ensures forall i, j :: 0 <= i < j < |Cpfs(l)| ==>
      PrimeiroIndice(Cpfs(l)[i], l) < PrimeiroIndice(Cpfs(l)[j], l)
  {
    if l != [] {
      var a := l[..|l| - 1];
      var e := l[|l| - 1];
      assert l == a + [e];
      CpfsEmOrdemDePrimeiraOcorrencia(a);
      var p := Cpfs(a);
      forall i | 0 <= i < |p|
        ensures PrimeiroIndice(p[i], l) == PrimeiroIndice(p[i], a) < |a|
      {
        PrimeiroIndiceDentro(p[i], a);
        PrimeiroIndiceAcrescentar(p[i], a, e);
      }
      if e.cpf !in p {
        PrimeiroIndiceDentro(e.cpf, a);
        PrimeiroIndiceAcrescentar(e.cpf, a, e);
        assert Cpfs(l) == p + [e.cpf];
      } else {
        assert Cpfs(l) == p;
      }
    }
  }

  // ---------------------------------------------------------------------------
  // The accumulation loop shared by the three dictionary-building reports
  // ---------------------------------------------------------------------------

  /** The dictionary after the entries `l`: its keys, in insertion order, are
      the CPFs of `l` in first-seen order, and each accumulator holds the sum
      and the count of that CPF's entries. */
  ghost predicate Agrupado(l: seq<Lancamento>, cpfs: seq<string>, acc: map<string, Acumulado>) {
    && cpfs == Cpfs(l)
    && (forall c :: c in acc <==> c in cpfs)
    && (forall c :: c in acc ==> acc[c] == Acumulado(SaldoDe(c, l), NumLancamentos(c, l)))
  }

  /** One step of the accumulation loop: once the entry's CPF has an
      accumulator, adding the entry to it keeps every accumulator the sum and
      count of the entries seen so far. */
  lemma PassoAgrupar(antes: seq<Lancamento>, e: Lancamento, acc: map<string, Acumulado>)
    requires e.cpf in acc
    requires forall c :: c in acc ==> acc[c] == Acumulado(SaldoDe(c, antes), NumLancamentos(c, antes))
    ensures var novo := acc[e.cpf := Acumulado(acc[e.cpf].saldo + e.valor, acc[e.cpf].numLancamentos + 1)];
      forall c :: c in novo ==>
        novo[c] == Acumulado(SaldoDe(c, antes + [e]), NumLancamentos(c, antes + [e]))
  {
    var novo := acc[e.cpf := Acumulado(acc[e.cpf].saldo + e.valor, acc[e.cpf].numLancamentos + 1)];
    forall c | c in novo
      ensures novo[c] == Acumulado(SaldoDe(c, antes + [e]), NumLancamentos(c, antes + [e]))
    {
      AcrescentarLancamento(c, antes, e);
    }
  }

  /** The dictionary after inserting-or-updating the entries of `l` one by one:
      a new CPF starts at zero, then its accumulator gains the entry's value
      and one more entry. */
  ghost function Tabela(l: seq<Lancamento>): map<string, Acumulado> {
    if l == [] then map[]
    else
      var t := Tabela(l[..|l| - 1]);
      var e := l[|l| - 1];
      var a := if e.cpf in t then t else t[e.cpf := Acumulado(0, 0)];
      a[e.cpf := Acumulado(a[e.cpf].saldo + e.valor, a[e.cpf].numLancamentos + 1)]
  }

  /** A step that meets a CPF for the first time: its zeroed accumulator
      already agrees with the entries seen so far, which have none of it. */
  lemma PassoNovoCpf(antes: seq<Lancamento>, e: Lancamento, acc: map<string, Acumulado>)
    requires e.cpf !in Cpfs(antes)
    requires forall c :: c in acc ==> acc[c] == Acumulado(SaldoDe(c, antes), NumLancamentos(c, antes))
    ensures var a := acc[e.cpf := Acumulado(0, 0)];
      forall c :: c in a ==> a[c] == Acumulado(SaldoDe(c, antes), NumLancamentos(c, antes))
  {
    CpfAusente(e.cpf, antes);
  }

  /** The dictionary holds, for every CPF of the ledger and no other key, the
      sum and the count of that CPF's entries. */
  lemma TabelaCorreta(l: seq<Lancamento>)
    ensures Agrupado(l, Cpfs(l), Tabela(l))
  {
    TabelaChaves(l);
    TabelaValores(l);
  }

  /** The keys of the dictionary are the CPFs of the ledger. */
  lemma {:induction false} TabelaChaves(l: seq<Lancamento>)
    ensures forall c :: c in Tabela(l) <==> c in Cpfs(l)
  {
    if l != [] {
      var antes, e := l[..|l| - 1], l[|l| - 1];
      assert l == antes + [e];
      TabelaChaves(antes);
      CpfsAcrescentar(antes, e);
    }
  }

  /** Each accumulator of the dictionary holds the sum and the count of its
      CPF's entries. */
  lemma {:induction false} TabelaValores(l: seq<Lancamento>)
    ensures forall c :: c in Tabela(l) ==>
      Tabela(l)[c] == Acumulado(SaldoDe(c, l), NumLancamentos(c, l))
  {
    if l != [] {
      var antes, e := l[..|l| - 1], l[|l| - 1];
      assert l == antes + [e];
      TabelaValores(antes);
      TabelaChaves(antes);
      PassoTabela(antes, e);
    }
  }

  /** One entry more: the insert-or-update step keeps every accumulator the
      sum and count of its CPF's entries. */
  lemma PassoTabela(antes: seq<Lancamento>, e: Lancamento)
    requires forall c :: c in Tabela(antes) <==> c in Cpfs(antes)
    requires forall c :: c in Tabela(antes) ==>
      Tabela(antes)[c] == Acumulado(SaldoDe(c, antes), NumLancamentos(c, antes))
    ensures forall c :: c in Tabela(antes + [e]) ==>
      Tabela(antes + [e])[c] == Acumulado(SaldoDe(c, antes + [e]), NumLancamentos(c, antes + [e]))
  {
    var l := antes + [e];
    assert l[..|l| - 1] == antes && l[|l| - 1] == e;
    var t := Tabela(antes);
    var a := if e.cpf in t then t else t[e.cpf := Acumulado(0, 0)];
    if e.cpf !in t {
      PassoNovoCpf(antes, e, t);
    }
    PassoAgrupar(antes, e, a);
  }

  /** One pass over the entries, inserting each new CPF into the dictionary
      and adding the entry's value and one to its accumulator. */
  method Agrupar(l: seq<Lancamento>) returns (cpfs: seq<string>, acc: map<string, Acumulado>)
    ensures cpfs == Cpfs(l)
    ensures forall c :: c in acc <==> c in cpfs
    ensures forall c :: c in acc ==> acc[c] == Acumulado(SaldoDe(c, l), NumLancamentos(c, l))
  {
    cpfs, acc := [], map[];
    for i := 0 to |l|
      invariant cpfs == Cpfs(l[..i])
      invariant acc == Tabela(l[..i])
    {
      var e := l[i];
      TabelaChaves(l[..i]);
      assert l[..i + 1][..i] == l[..i] && l[..i + 1][i] == e;
      if e.cpf !in acc {
        cpfs := cpfs + [e.cpf];
        acc := acc[e.cpf := Acumulado(0, 0)];
      }
      acc := acc[e.cpf := Acumulado(acc[e.cpf].saldo + e.valor, acc[e.cpf].numLancamentos + 1)];
    }
    assert l[..|l|] == l;
    TabelaCorreta(l);
  }

  // ---------------------------------------------------------------------------
  // recuperarSaldosPorConta
  // ---------------------------------------------------------------------------

  /** The balance of every CPF, in first-seen order. */
  function Saldos(l: seq<Lancamento>): seq<Saldo> {
    var k := Cpfs(l);
    seq(|k|, i requires 0 <= i < |k| => Saldo(k[i], SaldoDe(k[i], l)))
  }

  method RecuperarSaldosPorConta(l: seq<Lancamento>) returns (r: seq<Saldo>)
    ensures r == Saldos(l)
  {
    var cpfs, acc := Agrupar(l);
    r := seq(|cpfs|, i requires 0 <= i < |cpfs| => Saldo(cpfs[i], acc[cpfs[i]].saldo));
  }

  function SomaSaldos(b: seq<Saldo>): int {
    if b == [] then 0 else b[0].saldo + SomaSaldos(b[1..])
  }

  /** The balances of the CPFs in `k`, added up. */
  function SomaPorCpfs(k: seq<string>, l: seq<Lancamento>): int {
    if k == [] then 0 else SaldoDe(k[0], l) + SomaPorCpfs(k[1..], l)
  }

  lemma {:induction false} SomaSaldosPorCpfs(b: seq<Saldo>, k: seq<string>, l: seq<Lancamento>)
    requires |b| == |k|
    requires forall i :: 0 <= i < |b| ==> b[i] == Saldo(k[i], SaldoDe(k[i], l))
    ensures SomaSaldos(b) == SomaPorCpfs(k, l)
  {
    if b != [] {
      SomaSaldosPorCpfs(b[1..], k[1..], l);
    }
  }

  lemma {:induction false} SomaPorCpfsVazio(k: seq<string>)
    ensures SomaPorCpfs(k, []) == 0
  {
    if k != [] {
      SomaPorCpfsVazio(k[1..]);
    }
  }

  lemma {:induction false} SomaPorCpfsPrimeiro(k: seq<string>, e: Lancamento, t: seq<Lancamento>)
    requires Distintos(k)
    ensures SomaPorCpfs(k, [e] + t) == SomaPorCpfs(k, t) + (if e.cpf in k then e.valor else 0)
  {
    if k != [] {
      assert ([e] + t)[0] == e && ([e] + t)[1..] == t;
      assert Filtrar(k[0], [e] + t) == (if e.cpf == k[0] then [e] else []) + Filtrar(k[0], t);
      SomaConcatena(if e.cpf == k[0] then [e] else [], Filtrar(k[0], t));
      assert Distintos(k[1..]);
      SomaPorCpfsPrimeiro(k[1..], e, t);
      assert e.cpf in k <==> e.cpf == k[0] || e.cpf in k[1..] by {
        assert k == [k[0]] + k[1..];
      }
      if e.cpf == k[0] {
        assert e.cpf !in k[1..];
      }
    }
  }

  lemma {:induction false} SomaPorCpfsTotal(k: seq<string>, l: seq<Lancamento>)
    requires Distintos(k)
    requires forall e :: e in l ==> e.cpf in k
    ensures SomaPorCpfs(k, l) == Soma(l)
  {
    if l == [] {
      SomaPorCpfsVazio(k);
    } else {
      assert l == [l[0]] + l[1..];
      SomaPorCpfsTotal(k, l[1..]);
      SomaPorCpfsPrimeiro(k, l[0], l[1..]);
    }
  }

  /** `recuperarSaldosPorConta` has a row for every CPF of the ledger and for
      no other string, and each row's balance is the sum of that CPF's
      values. */
  lemma SaldosPorContaCobrem(l: seq<Lancamento>)
    ensures var r := Saldos(l);
      && (forall e :: e in l ==> exists i :: 0 <= i < |r| && r[i].cpf == e.cpf)
      && (forall i :: 0 <= i < |r| ==> exists e :: e in l && e.cpf == r[i].cpf)
      && (forall i :: 0 <= i < |r| ==> r[i].saldo == Soma(Filtrar(r[i].cpf, l)))
  {
    var r := Saldos(l);
    var k := Cpfs(l);
    CpfsMembros(l);
    forall e | e in l
      ensures exists i :: 0 <= i < |r| && r[i].cpf == e.cpf
    {
      assert e.cpf in k;
      var i :| 0 <= i < |k| && k[i] == e.cpf;
      assert r[i].cpf == e.cpf;
    }
    forall i | 0 <= i < |r|
      ensures exists e :: e in l && e.cpf == r[i].cpf
      ensures r[i].saldo == Soma(Filtrar(r[i].cpf, l))
    {
      assert r[i] == Saldo(k[i], SaldoDe(k[i], l));
      assert k[i] in k;
    }
  }

  /** The rows of `recuperarSaldosPorConta` are for distinct CPFs, in the order
      of their first entries. */
  lemma SaldosPorContaOrdenados(l: seq<Lancamento>)
    ensures var r := Saldos(l);
      && (forall i, j :: 0 <= i < j < |r| ==> r[i].cpf != r[j].cpf)
      && (forall i, j :: 0 <= i < j < |r| ==>
            PrimeiroIndice(r[i].cpf, l) < PrimeiroIndice(r[j].cpf, l))
  {
    CpfsEmOrdemDePrimeiraOcorrencia(l);
  }

  /** The balances of `recuperarSaldosPorConta` add up to the ledger's total:
      no entry is lost or counted twice. */
  lemma SaldosPorContaConservam(l: seq<Lancamento>)
    ensures SomaSaldos(Saldos(l)) == Soma(l)
  {
    var k := Cpfs(l);
    CpfsMembros(l);
    SomaSaldosPorCpfs(Saldos(l), k, l);
    SomaPorCpfsTotal(k, l);
  }

  // ---------------------------------------------------------------------------
  // recuperarMaiorMenorLancamentos
  // ---------------------------------------------------------------------------

  /** Ascending by value: the comparator `a.valor - b.valor`. */
  function ChaveValor(e: Lancamento): real {
    e.valor as real
  }

  /** `recuperarMaiorMenorLancamentos`: `[]` when the CPF has no entry, the sole
      entry twice when it has one, otherwise its smallest and largest entries by
      value, as the first and last of the filtered entries sorted ascending. */
  function RecuperarMaiorMenorLancamentos(cpf: string, l: seq<Lancamento>): (r: seq<Lancamento>)
    ensures r == [] <==> forall e :: e in l ==> e.cpf != cpf
    ensures |Filtrar(cpf, l)| == 1 ==> r == [Filtrar(cpf, l)[0], Filtrar(cpf, l)[0]]
    ensures r != [] ==>
      && |r| == 2
      && r[0] in l && r[0].cpf == cpf
      && r[1] in l && r[1].cpf == cpf
      && forall e :: e in l && e.cpf == cpf ==> r[0].valor <= e.valor <= r[1].valor
  {
    var f := Filtrar(cpf, l);
    FiltrarMembros(cpf, l);
    if |f| == 0 then
      []
    else if |f| == 1 then
      assert f[0] in f;
      assert forall e :: e in f ==> e == f[0];
      [f[0], f[0]]
    else
      var o := Ordenar(f, ChaveValor);
      MesmosElementos(f, o);
      Extremos(o, ChaveValor);
      assert o[0] in o && o[|o| - 1] in o;
      [o[0], o[|o| - 1]]
  }

  // ---------------------------------------------------------------------------
  // recuperarMaioresSaldos
  // ---------------------------------------------------------------------------

  /** Descending by balance: the comparator `b.saldo - a.saldo`. */
  function ChaveSaldo(s: Saldo): real {
    -(s.saldo as real)
  }

  /** The balances sorted from the largest, cut to the first three. */
  function MaioresSaldos(l: seq<Lancamento>): seq<Saldo> {
    var o := Ordenar(Saldos(l), ChaveSaldo);
    o[..Min(3, |o|)]
  }

  method RecuperarMaioresSaldos(l: seq<Lancamento>) returns (r: seq<Saldo>)
    ensures r == MaioresSaldos(l)
  {
    var cpfs, acc := Agrupar(l);
    var cpfSaldos := seq(|cpfs|, i requires 0 <= i < |cpfs| => Saldo(cpfs[i], acc[cpfs[i]].saldo));
    assert cpfSaldos == Saldos(l);
    cpfSaldos := Ordenar(cpfSaldos, ChaveSaldo);
    r := cpfSaldos[..Min(3, |cpfSaldos|)];
  }

  function CpfDoSaldo(s: Saldo): string {
    s.cpf
  }

  /** Any rearrangement `o` of rows `b` in descending balance, cut to its
      first three, keeps as many rows as there are, up to three, in
      non-increasing balance. */
  lemma TresMaioresSaldosOrdem(b: seq<Saldo>, o: seq<Saldo>)
    requires Ordenada(o, ChaveSaldo) && multiset(o) == multiset(b)
    ensures |o| == |b|
    ensures var r := o[..Min(3, |o|)];
      && |r| == Min(3, |b|)
      && (forall i, j :: 0 <= i < j < |r| ==> r[j].saldo <= r[i].saldo)
  {
    assert |o| == |multiset(o)| == |multiset(b)| == |b|;
    var r := o[..Min(3, |o|)];
    forall i, j | 0 <= i < j < |r| ensures r[j].saldo <= r[i].saldo {
      assert ChaveSaldo(o[i]) <= ChaveSaldo(o[j]);
    }
  }

  /** The same cut draws its rows from `b`, none more often than in `b`. */
  lemma TresMaioresSaldosMembros(b: seq<Saldo>, o: seq<Saldo>)
    requires Ordenada(o, ChaveSaldo) && multiset(o) == multiset(b)
    ensures var r := o[..Min(3, |o|)];
      && multiset(r) <= multiset(b)
      && (forall x :: x in r ==> x in b)
  {
    assert |o| == |multiset(o)| == |multiset(b)| == |b|;
    PrimeirosDe(b, o, ChaveSaldo, Min(3, |o|));
  }

  /** No row of `b` left out of the same cut has a larger balance than the
      last row kept. */
  lemma TresMaioresSaldosAcima(b: seq<Saldo>, o: seq<Saldo>)
    requires Ordenada(o, ChaveSaldo) && multiset(o) == multiset(b)
    ensures var r := o[..Min(3, |o|)];
      forall x :: x in b && x !in r ==> 0 < |r| && x.saldo <= r[|r| - 1].saldo
  {
    assert |o| == |multiset(o)| == |multiset(b)| == |b|;
    forall x | x in b && x !in o[..Min(3, |o|)]
      ensures 0 < Min(3, |o|) && x.saldo <= o[Min(3, |o|) - 1].saldo
    {
      SaldoAcima(b, o, x);
    }
  }

  /** One row left out of the cut, compared with the last row kept. */
  lemma SaldoAcima(b: seq<Saldo>, o: seq<Saldo>, x: Saldo)
    requires Ordenada(o, ChaveSaldo) && multiset(o) == multiset(b)
    requires x in b && x !in o[..Min(3, |o|)]
    ensures 0 < Min(3, |o|) && x.saldo <= o[Min(3, |o|) - 1].saldo
  {
    assert x in multiset(b);
    assert x in o;
    ForaDoPrefixo(o, ChaveSaldo, Min(3, |o|), x);
  }

  /** Rows for distinct CPFs stay for distinct CPFs after the ranking. */
  lemma TresMaioresSaldosDistintos(b: seq<Saldo>, o: seq<Saldo>)
    requires Ordenada(o, ChaveSaldo) && multiset(o) == multiset(b)
    requires forall i, j :: 0 <= i < j < |b| ==> CpfDoSaldo(b[i]) != CpfDoSaldo(b[j])
    ensures var r := o[..Min(3, |o|)];
      forall i, j :: 0 <= i < j < |r| ==> r[i].cpf != r[j].cpf
  {
    assert |o| == |multiset(o)| == |multiset(b)| == |b|;
    TresMaioresSaldosMembros(b, o);
    var r := o[..Min(3, |o|)];
    IdentidadesDistintas(b, r, CpfDoSaldo);
    forall i, j | 0 <= i < j < |r| ensures r[i].cpf != r[j].cpf {
      assert CpfDoSaldo(r[i]) != CpfDoSaldo(r[j]);
    }
  }

  /** The rows of the balance report are for distinct CPFs. */
  lemma SaldosCpfsDistintos(l: seq<Lancamento>)
    ensures var b := Saldos(l);
      forall i, j :: 0 <= i < j < |b| ==> CpfDoSaldo(b[i]) != CpfDoSaldo(b[j])
  {
    var k := Cpfs(l);
    assert forall i :: 0 <= i < |k| ==> CpfDoSaldo(Saldos(l)[i]) == k[i];
  }

  /** What `recuperarMaioresSaldos` reports: three rows, or one per CPF when
      there are fewer; in non-increasing balance; rows of the balance report,
      none taken twice, so for distinct CPFs; and no balance left out is
      larger than the last one reported. */
  lemma MaioresSaldosCorretos(l: seq<Lancamento>)
    ensures var r := MaioresSaldos(l);
      && |r| == Min(3, |Cpfs(l)|)
      && (forall i, j :: 0 <= i < j < |r| ==> r[j].saldo <= r[i].saldo)
      && multiset(r) <= multiset(Saldos(l))
      && (forall x :: x in r ==> x in Saldos(l))
      && (forall i, j :: 0 <= i < j < |r| ==> r[i].cpf != r[j].cpf)
      && (forall x :: x in Saldos(l) && x !in r ==> 0 < |r| && x.saldo <= r[|r| - 1].saldo)
  {
    var b := Saldos(l);
    var o := Ordenar(b, ChaveSaldo);
    SaldosCpfsDistintos(l);
    TresMaioresSaldosOrdem(b, o);
    TresMaioresSaldosMembros(b, o);
    TresMaioresSaldosAcima(b, o);
    TresMaioresSaldosDistintos(b, o);
    assert |b| == |Cpfs(l)|;
    assert MaioresSaldos(l) == o[..Min(3, |o|)];
  }

  // ---------------------------------------------------------------------------
  // recuperarMaioresMedias
  // ---------------------------------------------------------------------------

  /** Euclidean division of a non-negative number brackets it between two
      consecutive multiples. */
  lemma DivisaoNatural(a: nat, n: Positivo)
    ensures 0 <= (a / n) * n <= a < (a / n + 1) * n
  {
    var q, r := a / n, a % n;
    assert a == q * n + r && 0 <= r < n;
    assert (q + 1) * n == q * n + n;
    assert q >= 0;
  }

  /** `parseInt(saldo / n)`: the quotient truncated toward zero, written out
      because `/` on `int` is Euclidean. */
  function Truncar(s: int, n: Positivo): int {
    if s < 0 then -((-s) / n) else s / n
  }

  /** Truncation toward zero: the result is the multiple of `n` nearest to
      `s` on the side of zero, so it rounds up a negative average and down a
      positive one. */
  lemma TruncarEntre(s: int, n: Positivo)
    ensures var q := Truncar(s, n);
      && (0 <= s ==> 0 <= q * n <= s < (q + 1) * n)
      && (s < 0 ==> (q - 1) * n < s <= q * n <= 0)
  {
    if s < 0 {
      DivisaoNatural(-s, n);
      var q := (-s) / n;
      assert (-q) * n == -(q * n) && (-q - 1) * n == -((q + 1) * n);
    } else {
      DivisaoNatural(s, n);
    }
  }

  /** Truncation is symmetric about zero, unlike Euclidean division. */
  lemma TruncarSimetrico(s: int, n: Positivo)
    ensures Truncar(-s, n) == -Truncar(s, n)
  {
    if s == 0 {
      assert 0 / n == 0;
    }
  }

  /** Every CPF with its exact average, in first-seen order. */
  function MediasExatas(l: seq<Lancamento>): seq<MediaExata> {
    var k := Cpfs(l);
    seq(|k|, i requires 0 <= i < |k| =>
      CpfPresente(k[i], l);
      MediaExata(k[i], SaldoDe(k[i], l), NumLancamentos(k[i], l)))
  }

  function CpfDaMedia(m: MediaExata): string {
    m.cpf
  }

  /** Descending by average: the comparator `b.media - a.media`. */
  function ChaveMedia(m: MediaExata): real {
    -(m.saldo as real / m.numLancamentos as real)
  }

  /** The exact averages sorted from the largest, cut to the first three. */
  function MelhoresMedias(l: seq<Lancamento>): seq<MediaExata> {
    var o := Ordenar(MediasExatas(l), ChaveMedia);
    o[..Min(3, |o|)]
  }

  /** The final `map`: each row keeps its CPF and reports its average
      truncated toward zero. */
  function Truncadas(t: seq<MediaExata>): seq<Media> {
    seq(|t|, i requires 0 <= i < |t| => Media(t[i].cpf, Truncar(t[i].saldo, t[i].numLancamentos)))
  }

  /** The averages sorted from the largest, cut to three, then truncated. */
  function MaioresMedias(l: seq<Lancamento>): seq<Media> {
    Truncadas(MelhoresMedias(l))
  }

  method RecuperarMaioresMedias(l: seq<Lancamento>) returns (r: seq<Media>)
    ensures r == MaioresMedias(l)
  {
    var cpfs, acc := Agrupar(l);
    var medias := seq(|cpfs|, i requires 0 <= i < |cpfs| =>
      CpfPresente(cpfs[i], l);
      MediaExata(cpfs[i], acc[cpfs[i]].saldo, acc[cpfs[i]].numLancamentos));
    assert medias == MediasExatas(l);
    medias := Ordenar(medias, ChaveMedia);
    var t := medias[..Min(3, |medias|)];
    r := seq(|t|, i requires 0 <= i < |t| => Media(t[i].cpf, Truncar(t[i].saldo, t[i].numLancamentos)));
  }

  /** Row `i` of the report is row `i` of the untruncated ranking, truncated. */
  lemma MaioresMediasLinha(l: seq<Lancamento>, i: nat)
    requires i < |MelhoresMedias(l)|
    ensures |MaioresMedias(l)| == |MelhoresMedias(l)|
    ensures var x := MelhoresMedias(l)[i];
      MaioresMedias(l)[i] == Media(x.cpf, Truncar(x.saldo, x.numLancamentos))
  {
  }

  /** Each exact-average row is that of a CPF of the ledger, with its balance
      and entry count, so its sort key is minus the CPF's average. */
  lemma MediaExataMembro(l: seq<Lancamento>, x: MediaExata)
    requires x in MediasExatas(l)
    ensures x.cpf in Cpfs(l)
    ensures x.saldo == SaldoDe(x.cpf, l) && x.numLancamentos == NumLancamentos(x.cpf, l)
    ensures ChaveMedia(x) == -MediaDe(x.cpf, l)
  {
    var k := Cpfs(l);
    var m := MediasExatas(l);
    var j :| 0 <= j < |m| && m[j] == x;
    assert k[j] in k;
  }

  /** The row of each CPF of the ledger among the exact averages. */
  lemma MediaExataDe(l: seq<Lancamento>, c: string) returns (x: MediaExata)
    requires c in Cpfs(l)
    ensures x in MediasExatas(l) && x.cpf == c
  {
    var k := Cpfs(l);
    var j :| 0 <= j < |k| && k[j] == c;
    x := MediasExatas(l)[j];
  }

  /** What `recuperarMaioresMedias` reports: three rows, or one per CPF when
      there are fewer; each for a CPF of the ledger; each average truncated
      toward zero; in non-increasing exact average; no CPF twice. */
  lemma MaioresMediasCorretas(l: seq<Lancamento>)
    ensures var r := MaioresMedias(l);
      && |r| == Min(3, |Cpfs(l)|)
      && (forall i :: 0 <= i < |r| ==> r[i].cpf in Cpfs(l))
      && (forall i :: 0 <= i < |r| ==>
            NumLancamentos(r[i].cpf, l) > 0 &&
            r[i].media == Truncar(SaldoDe(r[i].cpf, l), NumLancamentos(r[i].cpf, l)))
      && (forall i, j :: 0 <= i < j < |r| ==> MediaDe(r[j].cpf, l) <= MediaDe(r[i].cpf, l))
      && (forall i, j :: 0 <= i < j < |r| ==> r[i].cpf != r[j].cpf)
  {
    var m := MediasExatas(l);
    var n := Min(3, |m|);
    Primeiros(m, ChaveMedia, n);
    var t := MelhoresMedias(l);
    var r := MaioresMedias(l);
    MelhoresMediasDistintas(l);
    forall i | 0 <= i < |t|
      ensures |r| == |t| && r[i].cpf == t[i].cpf
      ensures r[i].cpf in Cpfs(l) && NumLancamentos(r[i].cpf, l) > 0
      ensures r[i].media == Truncar(SaldoDe(r[i].cpf, l), NumLancamentos(r[i].cpf, l))
      ensures ChaveMedia(t[i]) == -MediaDe(r[i].cpf, l)
      ensures CpfDaMedia(t[i]) == r[i].cpf
    {
      MaioresMediasLinha(l, i);
      assert t[i] in t;
      MediaExataMembro(l, t[i]);
    }
  }

  /** The untruncated ranking of averages is for distinct CPFs. */
  lemma MelhoresMediasDistintas(l: seq<Lancamento>)
    ensures var t := MelhoresMedias(l);
      forall i, j :: 0 <= i < j < |t| ==> CpfDaMedia(t[i]) != CpfDaMedia(t[j])
  {
    var m := MediasExatas(l);
    MediasCpfsDistintos(l);
    var o := Ordenar(m, ChaveMedia);
    PrimeirosDe(m, o, ChaveMedia, Min(3, |o|));
    IdentidadesDistintas(m, o[..Min(3, |o|)], CpfDaMedia);
  }

  /** The unsorted averages are one per CPF, so for distinct CPFs. */
  lemma MediasCpfsDistintos(l: seq<Lancamento>)
    ensures var m := MediasExatas(l);
      forall i, j :: 0 <= i < j < |m| ==> CpfDaMedia(m[i]) != CpfDaMedia(m[j])
  {
    var k := Cpfs(l);
    assert forall i :: 0 <= i < |k| ==> CpfDaMedia(MediasExatas(l)[i]) == k[i];
  }

  /** No CPF left out of `recuperarMaioresMedias` has a larger average than
      the last one reported. */
  lemma MaioresMediasExcluidas(l: seq<Lancamento>, c: string)
    requires c in Cpfs(l)
    requires forall i :: 0 <= i < |MaioresMedias(l)| ==> MaioresMedias(l)[i].cpf != c
    ensures var r := MaioresMedias(l);
      0 < |r| && MediaDe(c, l) <= MediaDe(r[|r| - 1].cpf, l)
  {
    var t := MelhoresMedias(l);
    var r := MaioresMedias(l);
    MaioresMediasCpfs(l);
    MelhoresMediasExcluidas(l, c);
    assert r[|r| - 1].cpf == t[|t| - 1].cpf;
  }

  /** Truncation keeps each row's CPF and the number of rows. */
  lemma MaioresMediasCpfs(l: seq<Lancamento>)
    ensures var r, t := MaioresMedias(l), MelhoresMedias(l);
      |r| == |t| && forall i :: 0 <= i < |r| ==> r[i].cpf == t[i].cpf
  {
  }

  /** The same, before truncation: a CPF outside the three best exact
      averages has an average no larger than the last of them. */
  lemma MelhoresMediasExcluidas(l: seq<Lancamento>, c: string)
    requires c in Cpfs(l)
    requires forall i :: 0 <= i < |MelhoresMedias(l)| ==> MelhoresMedias(l)[i].cpf != c
    ensures var t := MelhoresMedias(l);
      0 < |t| && MediaDe(c, l) <= MediaDe(t[|t| - 1].cpf, l)
  {
    var m := MediasExatas(l);
    var n := Min(3, |m|);
    var t := MelhoresMedias(l);
    var x := MediaExataDe(l, c);
    assert x !in t by {
      forall i | 0 <= i < |t| ensures t[i] != x {
        assert t[i].cpf != c;
      }
    }
    Primeiros(m, ChaveMedia, n);
    var y := t[n - 1];
    assert y in t;
    MediaExataMembro(l, x);
    MediaExataMembro(l, y);
    assert |t| == n && t[|t| - 1] == y;
    assert ChaveMedia(y) <= ChaveMedia(x);
    assert MediaDe(c, l) == -ChaveMedia(x) && MediaDe(y.cpf, l) == -ChaveMedia(y);
  }

  // ---------------------------------------------------------------------------
  // Determinism
  // ---------------------------------------------------------------------------

  /** Each report builds its dictionary afresh, so calling it twice on the
      same ledger gives the same answer. */
  method ChamadasRepetidasConcordam(cpf: string, l: seq<Lancamento>) returns (iguais: bool)
    ensures iguais
  {
    var s1 := RecuperarSaldosPorConta(l);
    var s2 := RecuperarSaldosPorConta(l);
    var t1 := RecuperarMaioresSaldos(l);
    var t2 := RecuperarMaioresSaldos(l);
    var m1 := RecuperarMaioresMedias(l);
    var m2 := RecuperarMaioresMedias(l);
    var e1 := RecuperarMaiorMenorLancamentos(cpf, l);
    var e2 := RecuperarMaiorMenorLancamentos(cpf, l);
    iguais := s1 == s2 && t1 == t2 && m1 == m2 && e1 == e2;
  }
}
