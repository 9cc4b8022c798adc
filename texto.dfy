/** Decimal rendering of integers and the joining and splitting of text: the building blocks
    of the JavaScript de-duplication key `jogo.join(',')`, the CSV export and the two
    `formatar_jogo` renderings. Each rendering comes with a reader that undoes it. */
module Texto {
  import opened Loteria

  /** An ASCII decimal digit. The other Unicode decimal digits are not modelled. */
  predicate EhDigito(c: char) { '0' <= c <= '9' }

  function Digito(d: int): (c: char)
    requires 0 <= d <= 9
    ensures EhDigito(c) && ValorDigito(c) == d
  {
    ('0' as int + d) as char
  }

  /** The value of a decimal digit; anything else reads as 0. */
  function ValorDigito(c: char): nat
  {
    if EhDigito(c) then c as int - '0' as int else 0
  }

  /** `str(n)` / `String(n)` for a natural number. */
  function NaturalTexto(n: nat): (s: string)
    ensures 1 <= |s| && forall c :: c in s ==> EhDigito(c)
    decreases n
  {
    if n < 10 then [Digito(n)] else NaturalTexto(n / 10) + [Digito(n % 10)]
  }

  /** Reads a run of decimal digits (the inverse of `NaturalTexto`). */
  function LerNatural(s: string): nat
  {
    if s == [] then 0 else 10 * LerNatural(s[..|s| - 1]) + ValorDigito(s[|s| - 1])
  }

  lemma {:induction false} LerNaturalTexto(n: nat)
    ensures LerNatural(NaturalTexto(n)) == n
    decreases n
  {
    if n >= 10 {
      var s := NaturalTexto(n);
      assert s[..|s| - 1] == NaturalTexto(n / 10);
      LerNaturalTexto(n / 10);
    }
  }

  /** `str(n)` / `String(n)` for any integer. */
  function InteiroTexto(n: int): (s: string)
    ensures 1 <= |s| && forall c :: c in s ==> EhDigito(c) || c == '-'
  {
    if n < 0 then "-" + NaturalTexto(-n) else NaturalTexto(n)
  }

  function LerInteiro(s: string): int
  {
    if |s| > 0 && s[0] == '-' then -(LerNatural(s[1..]) as int) else LerNatural(s)
  }

  lemma LerInteiroTexto(n: int)
    ensures LerInteiro(InteiroTexto(n)) == n
  {
    if n < 0 {
      assert InteiroTexto(n)[1..] == NaturalTexto(-n);
      LerNaturalTexto(-n);
    } else {
      LerNaturalTexto(n);
      assert NaturalTexto(n)[0] in NaturalTexto(n);
    }
  }

  /** `f"{d:02d}"`: the decimal rendering, zero-padded to two characters. */
  function Pad2(d: int): (s: string)
    ensures 0 <= d <= 99 ==> |s| == 2 && LerNatural(s) == d
  {
    if 0 <= d < 10 then
      assert LerNatural("0" + NaturalTexto(d)) == d by {
        var s := "0" + NaturalTexto(d);
        assert s == ['0', Digito(d)];
        assert s[..1] == "0" && "0"[..0] == "";
      }
      "0" + NaturalTexto(d)
    else
      assert 10 <= d <= 99 ==> LerNatural(InteiroTexto(d)) == d by {
        if 10 <= d <= 99 { LerNaturalTexto(d); }
      }
      InteiroTexto(d)
  }

  // ---------------------------------------------------------------- joining and splitting

  /** `sep.join(partes)` / `partes.join(sep)`. */
  function Juntar(sep: string, partes: seq<string>): string
  {
    if |partes| == 0 then ""
    else if |partes| == 1 then partes[0]
    else partes[0] + sep + Juntar(sep, partes[1..])
  }

  /** `s.split(c)`: the pieces between occurrences of `c` (at least one piece). */
  function Separar(s: string, c: char): (r: seq<string>)
    ensures |r| >= 1
  {
    if s == [] then [""]
    else
      var resto := Separar(s[1..], c);
      if s[0] == c then [""] + resto else [[s[0]] + resto[0]] + resto[1..]
  }

  lemma {:induction false} SepararSemSeparador(a: string, c: char)
    requires c !in a
    ensures Separar(a, c) == [a]
  {
    if a != [] {
      SepararSemSeparador(a[1..], c);
      assert a == [a[0]] + a[1..];
    }
  }

  lemma {:induction false} SepararPrimeiro(a: string, b: string, c: char)
    requires c !in a
    ensures Separar(a + [c] + b, c) == [a] + Separar(b, c)
  {
    if a == [] {
      assert a + [c] + b == [c] + b;
      assert ([c] + b)[1..] == b;
    } else {
      assert (a + [c] + b)[1..] == a[1..] + [c] + b;
      SepararPrimeiro(a[1..], b, c);
      assert [a[0]] + a[1..] == a;
    }
  }

  /** Splitting on a one-character separator undoes joining with it, when no part contains it. */
  lemma {:induction false} SepararJuntar(partes: seq<string>, c: char)
    requires |partes| >= 1
    requires forall i :: 0 <= i < |partes| ==> c !in partes[i]
    ensures Separar(Juntar([c], partes), c) == partes
  {
    if |partes| == 1 {
      SepararSemSeparador(partes[0], c);
    } else {
      SepararJuntar(partes[1..], c);
      SepararPrimeiro(partes[0], Juntar([c], partes[1..]), c);
      assert [partes[0]] + partes[1..] == partes;
    }
  }

  // ---------------------------------------------------------------- keys and renderings

  function Textos(jogo: seq<int>): (r: seq<string>)
    ensures |r| == |jogo| && forall i :: 0 <= i < |jogo| ==> r[i] == InteiroTexto(jogo[i])
  {
    if jogo == [] then [] else [InteiroTexto(jogo[0])] + Textos(jogo[1..])
  }

  function LerInteiros(partes: seq<string>): (r: seq<int>)
    ensures |r| == |partes| && forall i :: 0 <= i < |partes| ==> r[i] == LerInteiro(partes[i])
  {
    if partes == [] then [] else [LerInteiro(partes[0])] + LerInteiros(partes[1..])
  }

  lemma LerInteirosTextos(jogo: seq<int>)
    ensures LerInteiros(Textos(jogo)) == jogo
  {
    forall i | 0 <= i < |jogo| ensures LerInteiros(Textos(jogo))[i] == jogo[i] {
      LerInteiroTexto(jogo[i]);
    }
  }

  /** The text `s` has no occurrence of `c`, over the renderings of a whole game. */
  lemma TextosSemSeparador(jogo: seq<int>, c: char)
    requires !EhDigito(c) && c != '-'
    ensures forall i :: 0 <= i < |jogo| ==> c !in Textos(jogo)[i]
  {
  }

  /** The JavaScript de-duplication key `jogo.join(',')`. */
  function Chave(jogo: seq<int>): string
  {
    Juntar(",", Textos(jogo))
  }

  function LerChave(s: string): seq<int>
  {
    if s == "" then [] else LerInteiros(Separar(s, ','))
  }

  /** The key determines the game: reading it back gives the game. */
  lemma LerChaveChave(jogo: seq<int>)
    ensures LerChave(Chave(jogo)) == jogo
  {
    if jogo != [] {
      TextosSemSeparador(jogo, ',');
      SepararJuntar(Textos(jogo), ',');
      LerInteirosTextos(jogo);
      assert Chave(jogo) != "" by {
        if |jogo| == 1 { assert Chave(jogo) == InteiroTexto(jogo[0]); }
      }
    }
  }

  /** Two games with the same key are the same game. */
  lemma ChaveInjetiva(a: seq<int>, b: seq<int>)
    requires Chave(a) == Chave(b)
    ensures a == b
  {
    LerChaveChave(a);
    LerChaveChave(b);
  }

  /** The TypeScript co-occurrence key `${a}-${b}`. */
  function ChavePar(a: int, b: int): string
  {
    Juntar("-", [InteiroTexto(a), InteiroTexto(b)])
  }

  /** `par.split('-').map(Number)` gives the pair back when neither number is negative. */
  lemma LerChavePar(a: nat, b: nat)
    ensures LerInteiros(Separar(ChavePar(a, b), '-')) == [a, b]
  {
    var partes := [InteiroTexto(a), InteiroTexto(b)];
    assert partes == Textos([a, b]);
    assert '-' !in NaturalTexto(a) && '-' !in NaturalTexto(b);
    SepararJuntar(partes, '-');
    LerInteirosTextos([a, b]);
  }

  /** Distinct pairs of numbers that are not negative have distinct keys. */
  lemma ChaveParInjetiva(a: nat, b: nat, c: nat, d: nat)
    requires ChavePar(a, b) == ChavePar(c, d)
    ensures a == c && b == d
  {
    LerChavePar(a, b);
    LerChavePar(c, d);
  }

  function Pads(jogo: seq<int>): (r: seq<string>)
    ensures |r| == |jogo| && forall i :: 0 <= i < |jogo| ==> r[i] == Pad2(jogo[i])
  {
    if jogo == [] then [] else [Pad2(jogo[0])] + Pads(jogo[1..])
  }

  /** `sep.join(f"{d:02d}" for d in jogo)`: the game as the player reads it. */
  function Formatar(jogo: seq<int>, sep: string): string
  {
    Juntar(sep, Pads(jogo))
  }

  /** Reads back a rendering made of two-character numbers separated by `sep`. */
  function LerFormatado(s: string, sep: string): seq<int>
    decreases |s|
  {
    if |s| <= 2 then [LerNatural(s)]
    else [LerNatural(s[..2])] + LerFormatado(s[Min(|s|, 2 + |sep|)..], sep)
  }

  /** Any separator makes the rendering of a non-empty game of numbers 0..99 readable back. */
  lemma {:induction false} LerFormatadoFormatar(jogo: seq<int>, sep: string)
    requires |jogo| >= 1
    requires forall i :: 0 <= i < |jogo| ==> 0 <= jogo[i] <= 99
    ensures LerFormatado(Formatar(jogo, sep), sep) == jogo
  {
    var s := Formatar(jogo, sep);
    if |jogo| > 1 {
      LerFormatadoFormatar(jogo[1..], sep);
      var resto := Formatar(jogo[1..], sep);
      FormatarPrimeiro(jogo, sep);
      assert s[..2] == Pad2(jogo[0]);
      assert s[2 + |sep|..] == resto;
      assert [jogo[0]] + jogo[1..] == jogo;
    }
  }

  /** A rendering of two or more numbers is the first one, the separator, and the rest's
      rendering, which takes at least two characters. */
  lemma FormatarPrimeiro(jogo: seq<int>, sep: string)
    requires |jogo| > 1 && 0 <= jogo[1] <= 99
    ensures Formatar(jogo, sep) == Pad2(jogo[0]) + sep + Formatar(jogo[1..], sep)
    ensures |Formatar(jogo[1..], sep)| >= 2
  {
    assert Pads(jogo)[1..] == Pads(jogo[1..]);
    var resto := Formatar(jogo[1..], sep);
    if |jogo[1..]| == 1 { assert resto == Pad2(jogo[1]); } else { assert resto[..2] == Pad2(jogo[1]); }
  }
}
