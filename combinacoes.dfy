/** `itertools.combinations(s, k)`: the k-element sub-sequences of `s`, chosen by position, in
    the order itertools emits them (lexicographic in the positions). */
module Combinacoes {
  import opened Loteria

  /** Prefixes every combination of `resto` with `x`. */
  function ComPrimeiro(x: int, resto: seq<seq<int>>): (r: seq<seq<int>>)
    ensures |r| == |resto| && forall i :: 0 <= i < |resto| ==> r[i] == [x] + resto[i]
  {
    seq(|resto|, i requires 0 <= i < |resto| => [x] + resto[i])
  }

  function Combinacoes(s: seq<int>, k: nat): seq<seq<int>>
    decreases |s|
  {
    if k == 0 then [[]]
    else if |s| < k then []
    else ComPrimeiro(s[0], Combinacoes(s[1..], k - 1)) + Combinacoes(s[1..], k)
  }

  /** Pascal's rule: the binomial coefficient C(n, k). */
  function Binomial(n: nat, k: nat): nat
  {
    if k == 0 then 1 else if n < k then 0 else Binomial(n - 1, k - 1) + Binomial(n - 1, k)
  }

  /** There are C(|s|, k) combinations. */
  lemma {:induction false} CombinacoesQuantidade(s: seq<int>, k: nat)
    ensures |Combinacoes(s, k)| == Binomial(|s|, k)
    decreases |s|
  {
    if k != 0 && |s| >= k {
      var a := Combinacoes(s[1..], k - 1);
      var b := Combinacoes(s[1..], k);
      CombinacoesQuantidade(s[1..], k - 1);
      CombinacoesQuantidade(s[1..], k);
      assert Combinacoes(s, k) == ComPrimeiro(s[0], a) + b;
      assert Binomial(|s|, k) == Binomial(|s[1..]|, k - 1) + Binomial(|s[1..]|, k);
    }
  }

  /** `a` is obtained from `b` by deleting elements. */
  predicate SubSeq(a: seq<int>, b: seq<int>)
    decreases |b|
  {
    if a == [] then true
    else if b == [] then false
    else if a[0] == b[0] then SubSeq(a[1..], b[1..])
    else SubSeq(a, b[1..])
  }

  lemma {:induction false} SubSeqElementos(a: seq<int>, b: seq<int>)
    requires SubSeq(a, b)
    ensures forall x :: x in a ==> x in b
    decreases |b|
  {
    if a != [] && b != [] {
      if a[0] == b[0] {
        SubSeqElementos(a[1..], b[1..]);
        assert forall x :: x in a ==> x == a[0] || x in a[1..];
      } else {
        SubSeqElementos(a, b[1..]);
      }
    }
  }

  lemma {:induction false} SubSeqCrescente(a: seq<int>, b: seq<int>)
    requires SubSeq(a, b) && EstritamenteCrescente(b)
    ensures EstritamenteCrescente(a)
    decreases |b|
  {
    if a != [] && b != [] {
      if a[0] == b[0] {
        SubSeqCrescente(a[1..], b[1..]);
        SubSeqElementos(a[1..], b[1..]);
        forall j | 0 < j < |a| ensures a[0] < a[j] {
          assert a[j] in a[1..];
          assert a[j] in b[1..];
        }
      } else {
        SubSeqCrescente(a, b[1..]);
      }
    }
  }

  /** Every combination has `k` elements and is a sub-sequence of `s`. */
  lemma {:induction false} CombinacoesSubSeq(s: seq<int>, k: nat)
    ensures forall c :: c in Combinacoes(s, k) ==> |c| == k && SubSeq(c, s)
    decreases |s|
  {
    if k != 0 && |s| >= k {
      CombinacoesSubSeq(s[1..], k - 1);
      CombinacoesSubSeq(s[1..], k);
      var prim := ComPrimeiro(s[0], Combinacoes(s[1..], k - 1));
      var resto := Combinacoes(s[1..], k);
      PrimeiroSubSeq(s, k, Combinacoes(s[1..], k - 1));
      forall c | c in resto ensures |c| == k && SubSeq(c, s) {
        SubSeqSalta(c, s);
      }
      assert Combinacoes(s, k) == prim + resto;
    }
  }

  /** Putting the first element of `s` in front of sub-sequences of its tail gives
      sub-sequences of `s`, one element longer. */
  lemma PrimeiroSubSeq(s: seq<int>, k: nat, a: seq<seq<int>>)
    requires s != [] && k >= 1
    requires forall d :: d in a ==> |d| == k - 1 && SubSeq(d, s[1..])
    ensures forall c :: c in ComPrimeiro(s[0], a) ==> |c| == k && SubSeq(c, s)
  {
    var prim := ComPrimeiro(s[0], a);
    forall c | c in prim ensures |c| == k && SubSeq(c, s) {
      var i :| 0 <= i < |prim| && prim[i] == c;
      assert c[0] == s[0] && c[1..] == a[i];
    }
  }

  lemma {:induction false} SubSeqSalta(a: seq<int>, b: seq<int>)
    requires b != [] && SubSeq(a, b[1..])
    ensures SubSeq(a, b)
    decreases |b|, |a|, 1
  {
    if a != [] && a[0] == b[0] {
      SubSeqCauda(a, b[1..]);
    }
  }

  lemma {:induction false} SubSeqCauda(a: seq<int>, b: seq<int>)
    requires a != [] && SubSeq(a, b)
    ensures SubSeq(a[1..], b)
    decreases |b|, |a|, 0
  {
    if b != [] {
      if a[0] == b[0] {
        SubSeqSalta(a[1..], b);
      } else {
        SubSeqCauda(a, b[1..]);
        SubSeqSalta(a[1..], b);
      }
    }
  }

  /** On a strictly increasing `s`, every combination is strictly increasing: a sorted
      k-subset. */
  lemma CombinacoesCrescentes(s: seq<int>, k: nat)
    requires EstritamenteCrescente(s)
    ensures forall c :: c in Combinacoes(s, k) ==> |c| == k && EstritamenteCrescente(c) &&
                                                   forall x :: x in c ==> x in s
  {
    CombinacoesSubSeq(s, k);
    forall c | c in Combinacoes(s, k) ensures EstritamenteCrescente(c) && forall x :: x in c ==> x in s {
      SubSeqCrescente(c, s);
      SubSeqElementos(c, s);
    }
  }

  /** The whole sequence is its own only |s|-combination. */
  lemma {:induction false} CombinacoesTodas(s: seq<int>)
    ensures s in Combinacoes(s, |s|)
    decreases |s|
  {
    if s != [] {
      CombinacoesTodas(s[1..]);
      var resto := Combinacoes(s[1..], |s| - 1);
      var i :| 0 <= i < |resto| && resto[i] == s[1..];
      assert ComPrimeiro(s[0], resto)[i] == s;
    }
  }

  /** Membership in the combinations, one recursion step at a time. */
  lemma MembroCombinacoes(s: seq<int>, k: nat, c: seq<int>)
    requires 1 <= k <= |s|
    ensures c in Combinacoes(s, k) <==>
              (|c| >= 1 && c[0] == s[0] && c[1..] in Combinacoes(s[1..], k - 1)) || c in Combinacoes(s[1..], k)
  {
    var a := Combinacoes(s[1..], k - 1);
    var prim := ComPrimeiro(s[0], a);
    assert Combinacoes(s, k) == prim + Combinacoes(s[1..], k);
    if c in prim {
      var i :| 0 <= i < |prim| && prim[i] == c;
      assert c[1..] == a[i];
    }
    if |c| >= 1 && c[0] == s[0] && c[1..] in a {
      var i :| 0 <= i < |a| && a[i] == c[1..];
      assert prim[i] == c;
    }
  }

  /** `t` is a k-combination of `s`, decided one element of `s` at a time: either `t` starts
      with the first element of `s` and goes on with a (k-1)-combination of the rest, or it
      is a k-combination of the rest. */
  predicate EhCombinacao(t: seq<int>, s: seq<int>, k: nat)
    decreases |s|
  {
    if k == 0 then t == []
    else if |s| < k then false
    else (|t| >= 1 && t[0] == s[0] && EhCombinacao(t[1..], s[1..], k - 1)) || EhCombinacao(t, s[1..], k)
  }

  /** Membership in the list of combinations is the recursive test. */
  lemma {:induction false} EhCombinacaoMembro(s: seq<int>, k: nat, t: seq<int>)
    ensures t in Combinacoes(s, k) <==> EhCombinacao(t, s, k)
    decreases |s|
  {
    if k != 0 && |s| >= k {
      MembroCombinacoes(s, k, t);
      EhCombinacaoMembro(s[1..], k, t);
      if |t| >= 1 {
        EhCombinacaoMembro(s[1..], k - 1, t[1..]);
      }
    }
  }

  /** A k-combination has k elements. */
  lemma {:induction false} EhCombinacaoTamanho(t: seq<int>, s: seq<int>, k: nat)
    requires EhCombinacao(t, s, k)
    ensures |t| == k
    decreases |s|
  {
    if k != 0 {
      if |t| >= 1 && t[0] == s[0] && EhCombinacao(t[1..], s[1..], k - 1) {
        EhCombinacaoTamanho(t[1..], s[1..], k - 1);
      } else {
        EhCombinacaoTamanho(t, s[1..], k);
      }
    }
  }

  /** A sequence is its own |s|-combination. */
  lemma {:induction false} EhCombinacaoPropria(s: seq<int>)
    ensures EhCombinacao(s, s, |s|)
    decreases |s|
  {
    if s != [] {
      EhCombinacaoPropria(s[1..]);
    }
  }

  /** The extension on the recursive test: a g-combination `t` of `s` lies inside a
      k-combination `c` of `s`. */
  lemma {:induction false} EstendeCombinacao(s: seq<int>, t: seq<int>, g: nat, k: nat) returns (c: seq<int>)
    requires EhCombinacao(t, s, g) && g <= k <= |s|
    ensures EhCombinacao(c, s, k) && EhCombinacao(t, c, g)
    decreases |s|
  {
    if k == |s| {
      EhCombinacaoPropria(s);
      c := s;
    } else if g >= 1 && |t| >= 1 && t[0] == s[0] && EhCombinacao(t[1..], s[1..], g - 1) {
      var c' := EstendeCombinacao(s[1..], t[1..], g - 1, k - 1);
      c := [s[0]] + c';
      assert c[1..] == c';
      EhCombinacaoTamanho(c', s[1..], k - 1);
    } else {
      c := EstendeCombinacao(s[1..], t, g, k);
    }
  }

  /** Every g-combination of `s` lies inside some k-combination `c` of `s`, for
      g <= k <= |s|: the fact that makes a covering by k-subsets possible. */
  lemma CombinacaoEstende(s: seq<int>, t: seq<int>, g: nat, k: nat) returns (c: seq<int>)
    requires t in Combinacoes(s, g) && g <= k <= |s|
    ensures c in Combinacoes(s, k) && t in Combinacoes(c, g)
  {
    EhCombinacaoMembro(s, g, t);
    c := EstendeCombinacao(s, t, g, k);
    EhCombinacaoMembro(s, k, c);
    EhCombinacaoMembro(c, g, t);
  }

  lemma CombinacoesTamanho(s: seq<int>, k: nat, c: seq<int>)
    requires c in Combinacoes(s, k)
    ensures |c| == k
  {
    CombinacoesSubSeq(s, k);
  }

  /** Strict lexicographic order on sequences of numbers. */
  predicate LexMenor(a: seq<int>, b: seq<int>)
    decreases |a|
  {
    a != [] && b != [] && (a[0] < b[0] || (a[0] == b[0] && LexMenor(a[1..], b[1..])))
  }

  predicate LexOrdenada(cs: seq<seq<int>>)
  {
    forall i, j :: 0 <= i < j < |cs| ==> LexMenor(cs[i], cs[j])
  }

  lemma LexPrimeiro(x: int, a: seq<seq<int>>)
    requires LexOrdenada(a)
    ensures LexOrdenada(ComPrimeiro(x, a))
  {
    var p := ComPrimeiro(x, a);
    forall i, j | 0 <= i < j < |p| ensures LexMenor(p[i], p[j]) {
      assert p[i][1..] == a[i] && p[j][1..] == a[j];
    }
  }

  lemma LexJuntar(p: seq<seq<int>>, q: seq<seq<int>>)
    requires LexOrdenada(p) && LexOrdenada(q)
    requires forall i, j :: 0 <= i < |p| && 0 <= j < |q| ==> LexMenor(p[i], q[j])
    ensures LexOrdenada(p + q)
  {
    var r := p + q;
    forall i, j | 0 <= i < j < |r| ensures LexMenor(r[i], r[j]) {
      if j < |p| {
        assert r[i] == p[i] && r[j] == p[j];
      } else if i < |p| {
        assert r[i] == p[i] && r[j] == q[j - |p|];
      } else {
        assert r[i] == q[i - |p|] && r[j] == q[j - |p|];
      }
    }
  }

  /** On a strictly increasing `s`, the combinations come out in strictly increasing
      lexicographic order. */
  lemma {:induction false} CombinacoesLexicograficas(s: seq<int>, k: nat)
    requires EstritamenteCrescente(s) && k >= 1
    ensures LexOrdenada(Combinacoes(s, k))
    decreases |s|
  {
    if |s| >= k {
      var a := Combinacoes(s[1..], k - 1);
      var b := Combinacoes(s[1..], k);
      var prim := ComPrimeiro(s[0], a);
      assert EstritamenteCrescente(s[1..]);
      if k > 1 {
        CombinacoesLexicograficas(s[1..], k - 1);
      } else {
        assert |a| == 1;
      }
      LexPrimeiro(s[0], a);
      CombinacoesLexicograficas(s[1..], k);
      CombinacoesCrescentes(s[1..], k);
      forall i, j | 0 <= i < |prim| && 0 <= j < |b| ensures LexMenor(prim[i], b[j]) {
        assert b[j] in b;
        assert b[j][0] in b[j];
        assert b[j][0] in s[1..];
      }
      LexJuntar(prim, b);
    }
  }
}
