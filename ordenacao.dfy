/**
  The ordering step of the service's rankings.

  The service sorts freshly built arrays with `Array.prototype.sort` and a
  numeric comparator; the engine's sort is stable. The model is a stable
  insertion sort on sequences, ascending by a key: a descending comparator is an
  ascending key that is negated.
 */
module Ordenacao {

  /** `s` is in non-decreasing order of `chave`. */
  ghost predicate Ordenada<T>(s: seq<T>, chave: T -> real) {
    forall i, j :: 0 <= i < j < |s| ==> chave(s[i]) <= chave(s[j])
  }

  /** Inserts `x` before the first element whose key is not smaller than its
      own, so `x` comes first among the elements with its key. */
  function Inserir<T>(x: T, t: seq<T>, chave: T -> real): (r: seq<T>)
    ensures |r| == |t| + 1
    ensures multiset(r) == multiset(t) + multiset{x}
  {
    if t == [] || chave(x) <= chave(t[0]) then
      [x] + t
    else
      assert t == [t[0]] + t[1..];
      [t[0]] + Inserir(x, t[1..], chave)
  }

  /** Putting in front of a sorted sequence an element whose key is no
      larger than any of its keys keeps it sorted. */
  lemma OrdenadaNaFrente<T>(x: T, t: seq<T>, chave: T -> real)
    requires Ordenada(t, chave)
    requires forall k :: 0 <= k < |t| ==> chave(x) <= chave(t[k])
    ensures Ordenada([x] + t, chave)
  {
    var r := [x] + t;
    forall i, j | 0 <= i < j < |r| ensures chave(r[i]) <= chave(r[j]) {
      assert r[j] == t[j - 1];
      if 0 < i {
        assert r[i] == t[i - 1];
      }
    }
  }

  /** Inserting into a sorted sequence keeps it sorted. */
  lemma {:induction false} InserirOrdenada<T>(x: T, t: seq<T>, chave: T -> real)
    requires Ordenada(t, chave)
    ensures Ordenada(Inserir(x, t, chave), chave)
  {
    if t == [] || chave(x) <= chave(t[0]) {
      forall k | 0 <= k < |t| ensures chave(x) <= chave(t[k]) {
        assert chave(t[0]) <= chave(t[k]);
      }
      OrdenadaNaFrente(x, t, chave);
    } else {
      var resto := Inserir(x, t[1..], chave);
      InserirOrdenada(x, t[1..], chave);
      forall k | 0 <= k < |resto| ensures chave(t[0]) <= chave(resto[k]) {
        var y := resto[k];
        assert y in resto;
        assert y in multiset(resto);
        assert multiset(resto) == multiset(t[1..]) + multiset{x};
        if y != x {
          assert y !in multiset{x};
          assert y in multiset(t[1..]);
          assert y in t[1..];
          var j :| 0 <= j < |t[1..]| && t[1..][j] == y;
          assert t[j + 1] == y;
          assert chave(t[0]) <= chave(t[j + 1]);
        } else {
          assert chave(t[0]) < chave(x);
        }
      }
      OrdenadaNaFrente(t[0], resto, chave);
      assert Inserir(x, t, chave) == [t[0]] + resto;
    }
  }

  /** A stable sort: a permutation of `s` in non-decreasing key order. */
  function Ordenar<T>(s: seq<T>, chave: T -> real): (r: seq<T>)
    ensures |r| == |s|
    ensures multiset(r) == multiset(s)
    ensures Ordenada(r, chave)
  {
    if s == [] then []
    else
      assert s == [s[0]] + s[1..];
      InserirOrdenada(s[0], Ordenar(s[1..], chave), chave);
      Inserir(s[0], Ordenar(s[1..], chave), chave)
  }

  /** The first `n` elements of a sorted sequence have the smallest keys: every
      element outside them has a key at least that of the n-th. */
  lemma ForaDoPrefixo<T>(o: seq<T>, chave: T -> real, n: nat, x: T)
    requires Ordenada(o, chave) && 0 < n <= |o|
    requires x in o && x !in o[..n]
    ensures chave(o[n - 1]) <= chave(x)
  {
    var k :| 0 <= k < |o| && o[k] == x;
  }

  /** Two sequences with the same multiset have the same elements. */
  lemma MesmosElementos<T>(s: seq<T>, o: seq<T>)
    requires multiset(o) == multiset(s)
    ensures forall x :: x in o <==> x in s
  {
    forall x ensures x in o <==> x in s {
      assert x in o <==> x in multiset(o);
      assert x in s <==> x in multiset(s);
    }
  }

  /** A sorted sequence starts with a least key and ends with a greatest. */
  lemma Extremos<T>(o: seq<T>, chave: T -> real)
    requires Ordenada(o, chave) && o != []
    ensures forall x :: x in o ==> chave(o[0]) <= chave(x) <= chave(o[|o| - 1])
  {
    forall x | x in o ensures chave(o[0]) <= chave(x) <= chave(o[|o| - 1]) {
      var k :| 0 <= k < |o| && o[k] == x;
    }
  }

  /** A prefix of a sorted sequence is sorted. */
  lemma PrefixoOrdenado<T>(o: seq<T>, chave: T -> real, n: nat)
    requires Ordenada(o, chave) && n <= |o|
    ensures Ordenada(o[..n], chave)
  {
    forall i, j | 0 <= i < j < n ensures chave(o[..n][i]) <= chave(o[..n][j]) {
      assert o[..n][i] == o[i] && o[..n][j] == o[j];
    }
  }

  /** The first `n` elements after sorting: still in order, drawn from the
      input without repeating any of its elements, and none of the elements
      left out has a smaller key than the last one kept. */
  lemma Primeiros<T>(s: seq<T>, chave: T -> real, n: nat)
    requires n <= |s| && (s != [] ==> 0 < n)
    ensures var r := Ordenar(s, chave)[..n];
      && Ordenada(r, chave)
      && multiset(r) <= multiset(s)
      && (forall x :: x in r ==> x in s)
      && (forall x :: x in s && x !in r ==> 0 < n && chave(r[n - 1]) <= chave(x))
  {
    PrimeirosDe(s, Ordenar(s, chave), chave, n);
  }

  /** `Primeiros` for any sorted rearrangement `o` of `s`. */
  lemma PrimeirosDe<T>(s: seq<T>, o: seq<T>, chave: T -> real, n: nat)
    requires Ordenada(o, chave) && multiset(o) == multiset(s)
    requires n <= |o| && (o != [] ==> 0 < n)
    ensures var r := o[..n];
      && Ordenada(r, chave)
      && multiset(r) <= multiset(s)
      && (forall x :: x in r ==> x in s)
      && (forall x :: x in s && x !in r ==> 0 < n && chave(r[n - 1]) <= chave(x))
  {
    var r := o[..n];
    assert o == r + o[n..];
    assert multiset(o) == multiset(r) + multiset(o[n..]);
    MesmosElementos(s, o);
    PrefixoOrdenado(o, chave, n);
    forall x | x in r ensures x in s {
      var k :| 0 <= k < n && r[k] == x;
      assert r[k] == o[k] && o[k] in o;
    }
    forall x | x in s && x !in r ensures 0 < n && chave(r[n - 1]) <= chave(x) {
      ForaDoPrefixo(o, chave, n, x);
    }
  }

  /** An element that occurs at two positions is counted at least twice. */
  lemma DuasOcorrencias<T>(o: seq<T>, i: nat, j: nat)
    requires i < j < |o| && o[i] == o[j]
    ensures multiset(o)[o[i]] >= 2
  {
    var a, b := o[..j], o[j + 1..];
    assert o == a + [o[j]] + b;
    assert o[i] == a[i];
    assert a[i] in multiset(a);
  }

  /** In a sequence whose elements have pairwise distinct identities, every
      element is counted at most once. */
  lemma {:induction false} ContagemUnica<T, U>(s: seq<T>, id: T -> U, x: T)
    requires forall i, j :: 0 <= i < j < |s| ==> id(s[i]) != id(s[j])
    ensures multiset(s)[x] <= 1
  {
    if s != [] {
      assert s == [s[0]] + s[1..];
      ContagemUnica(s[1..], id, x);
      if s[0] == x {
        assert x !in s[1..] by {
          forall k | 0 <= k < |s[1..]| ensures s[1..][k] != x {
            assert id(s[0]) != id(s[k + 1]);
          }
        }
      }
    }
  }

  /** Drawing elements from a sequence without repeating any keeps the
      identities distinct: a sorted prefix of rows for distinct CPFs is still
      for distinct CPFs. */
  lemma IdentidadesDistintas<T, U>(s: seq<T>, o: seq<T>, id: T -> U)
    requires multiset(o) <= multiset(s)
    requires forall i, j :: 0 <= i < j < |s| ==> id(s[i]) != id(s[j])
    ensures forall i, j :: 0 <= i < j < |o| ==> id(o[i]) != id(o[j])
  {
    forall i, j | 0 <= i < j < |o| ensures id(o[i]) != id(o[j]) {
      assert o[i] in multiset(s) && o[j] in multiset(s) by {
        assert o[i] in multiset(o) && o[j] in multiset(o);
      }
      var p :| 0 <= p < |s| && s[p] == o[i];
      var q :| 0 <= q < |s| && s[q] == o[j];
      if id(o[i]) == id(o[j]) {
        assert p == q;
        DuasOcorrencias(o, i, j);
        ContagemUnica(s, id, o[i]);
        assert false;
      }
    }
  }
}
