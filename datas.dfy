/** `parse_data` of gerador_megasena.py: strip the text, then try Python's `strptime` with
    `%Y-%m-%d`, `%d/%m/%Y` and `%d-%m-%Y` in that order.

    `strptime` compiles the format into a regular expression and calls `re.match` on the
    text: `%Y` is `\d\d\d\d`, `%m` is `1[0-2]|0[1-9]|[1-9]` and `%d` is
    `3[01]|[12]\d|0[1-9]|[1-9]| [1-9]`, alternatives tried left to right with
    backtracking. A text that does not match, a match that stops before the end of the text
    ("unconverted data remains"), or fields that are not a real calendar date raise
    `ValueError`. */
module Datas {
  import opened Loteria
  import opened Texto

  datatype Data = Data(ano: int, mes: int, dia: int)

  predicate Bissexto(ano: int) { ano % 4 == 0 && (ano % 100 != 0 || ano % 400 == 0) }

  function DiasNoMes(ano: int, mes: int): int
    requires 1 <= mes <= 12
  {
    if mes == 2 then (if Bissexto(ano) then 29 else 28)
    else if mes == 4 || mes == 6 || mes == 9 || mes == 11 then 30
    else 31
  }

  /** A date Python's `date` accepts. */
  predicate DataValida(d: Data)
  {
    1 <= d.ano <= 9999 && 1 <= d.mes <= 12 && 1 <= d.dia <= DiasNoMes(d.ano, d.mes)
  }

  /** `str.isspace()`: the characters `str.strip()` removes. */
  predicate EhEspaco(c: char)
  {
    c == ' ' || '\t' <= c <= '\r' || '\U{1C}' <= c <= '\U{1F}' || c == '\U{85}' || c == '\U{A0}'
    || c == '\U{1680}' || '\U{2000}' <= c <= '\U{200A}' || c == '\U{2028}' || c == '\U{2029}'
    || c == '\U{202F}' || c == '\U{205F}' || c == '\U{3000}'
  }

  function TirarInicio(s: string): string
  {
    if s != [] && EhEspaco(s[0]) then TirarInicio(s[1..]) else s
  }

  function TirarFim(s: string): string
  {
    if s != [] && EhEspaco(s[|s| - 1]) then TirarFim(s[..|s| - 1]) else s
  }

  /** `valor.strip()`. */
  function Strip(s: string): (r: string)
  {
    TirarFim(TirarInicio(s))
  }

  lemma {:induction false} TirarFimSemEspaco(s: string, c: char)
    requires EhEspaco(c)
    ensures TirarFim(s + [c]) == TirarFim(s)
  {
    assert (s + [c])[..|s + [c]| - 1] == s;
  }

  lemma {:induction false} TirarInicioFim(s: string, c: char)
    ensures TirarInicio(s + [c]) == if TirarInicio(s) == [] then TirarInicio([c]) else TirarInicio(s) + [c]
  {
    if s != [] {
      assert (s + [c])[1..] == s[1..] + [c];
      if EhEspaco(s[0]) { TirarInicioFim(s[1..], c); }
    }
  }

  /** Whitespace around the text does not change what `strip` keeps. */
  lemma StripIgnoraEspacos(s: string, c: char)
    requires EhEspaco(c)
    ensures Strip([c] + s) == Strip(s) && Strip(s + [c]) == Strip(s)
  {
    assert ([c] + s)[1..] == s;
    TirarInicioFim(s, c);
    if TirarInicio(s) == [] {
      assert TirarInicio([c]) == [] by { assert [c][1..] == []; }
    } else {
      TirarFimSemEspaco(TirarInicio(s), c);
    }
  }

  lemma {:induction false} StripSemEspacos(s: string)
    requires forall i :: 0 <= i < |s| ==> !EhEspaco(s[i])
    ensures Strip(s) == s
  {
  }

  // ---------------------------------------------------------------- format directives

  predicate DigitoEm(s: string, i: int) { 0 <= i < |s| && EhDigito(s[i]) }

  predicate CharEm(s: string, i: int, c: char) { 0 <= i < |s| && s[i] == c }

  predicate EntreEm(s: string, i: int, lo: char, hi: char) { 0 <= i < |s| && lo <= s[i] <= hi }

  function Dois(s: string, i: int): int
    requires 0 <= i && i + 1 < |s|
  {
    10 * ValorDigito(s[i]) + ValorDigito(s[i + 1])
  }

  /** `%Y` at position `i`: four digits, giving (year, end). */
  function CasarAno(s: string, i: int): Option<(int, int)>
  {
    if DigitoEm(s, i) && DigitoEm(s, i + 1) && DigitoEm(s, i + 2) && DigitoEm(s, i + 3) then
      Some((100 * Dois(s, i) + Dois(s, i + 2), i + 4))
    else None
  }

  /** The alternatives of `%m` that match at `i`, in the order the regex tries them. */
  function CasarMes(s: string, i: int): seq<(int, int)>
  {
    (if CharEm(s, i, '1') && EntreEm(s, i + 1, '0', '2') then [(Dois(s, i), i + 2)] else [])
    + (if CharEm(s, i, '0') && EntreEm(s, i + 1, '1', '9') then [(Dois(s, i), i + 2)] else [])
    + (if EntreEm(s, i, '1', '9') then [(ValorDigito(s[i]), i + 1)] else [])
  }

  /** The alternatives of `%d` that match at `i`, in the order the regex tries them. */
  function CasarDia(s: string, i: int): seq<(int, int)>
  {
    (if CharEm(s, i, '3') && EntreEm(s, i + 1, '0', '1') then [(Dois(s, i), i + 2)] else [])
    + (if EntreEm(s, i, '1', '2') && DigitoEm(s, i + 1) then [(Dois(s, i), i + 2)] else [])
    + (if CharEm(s, i, '0') && EntreEm(s, i + 1, '1', '9') then [(Dois(s, i), i + 2)] else [])
    + (if EntreEm(s, i, '1', '9') then [(ValorDigito(s[i]), i + 1)] else [])
    + (if CharEm(s, i, ' ') && EntreEm(s, i + 1, '1', '9') then [(ValorDigito(s[i + 1]), i + 2)] else [])
  }

  datatype Formato = AnoMesDia | DiaMesAno(sep: char)

  /** `%Y-%m-%d`: the first `%m` alternative after which `-%d` matches wins. */
  function CasarIso(s: string): Option<(Data, int)>
  {
    match CasarAno(s, 0)
    case None => None
    case Some((ano, fim)) => if CharEm(s, fim, '-') then IsoMes(s, ano, CasarMes(s, fim + 1)) else None
  }

  function IsoMes(s: string, ano: int, meses: seq<(int, int)>): Option<(Data, int)>
  {
    if meses == [] then None
    else
      var (mes, fim) := meses[0];
      var dias := CasarDia(s, fim + 1);
      if CharEm(s, fim, '-') && dias != [] then Some((Data(ano, mes, dias[0].0), dias[0].1))
      else IsoMes(s, ano, meses[1..])
  }

  /** `%d<sep>%m<sep>%Y`: backtracking over the day alternatives, then the month ones. */
  function CasarDma(s: string, sep: char): Option<(Data, int)>
  {
    DmaDia(s, sep, CasarDia(s, 0))
  }

  function DmaDia(s: string, sep: char, dias: seq<(int, int)>): Option<(Data, int)>
  {
    if dias == [] then None
    else
      var (dia, fim) := dias[0];
      var r := if CharEm(s, fim, sep) then DmaMes(s, sep, dia, CasarMes(s, fim + 1)) else None;
      if r.Some? then r else DmaDia(s, sep, dias[1..])
  }

  function DmaMes(s: string, sep: char, dia: int, meses: seq<(int, int)>): Option<(Data, int)>
  {
    if meses == [] then None
    else
      var (mes, fim) := meses[0];
      var ano := CasarAno(s, fim + 1);
      if CharEm(s, fim, sep) && ano.Some? then Some((Data(ano.value.0, mes, dia), ano.value.1))
      else DmaMes(s, sep, dia, meses[1..])
  }

  /** `datetime.strptime(s, formato).date()`. */
  function Strptime(s: string, formato: Formato): (r: Result<Data, Falha>)
    ensures r.Success? ==> DataValida(r.value)
  {
    var casamento := match formato
      case AnoMesDia => CasarIso(s)
      case DiaMesAno(sep) => CasarDma(s, sep);
    if casamento.None? then Failure(ValueError("time data does not match format"))
    else if casamento.value.1 != |s| then Failure(ValueError("unconverted data remains"))
    else if !DataValida(casamento.value.0) then Failure(ValueError("day is out of range for month"))
    else Success(casamento.value.0)
  }

  const Formatos: seq<Formato> := [AnoMesDia, DiaMesAno('/'), DiaMesAno('-')]

  function PrimeiroFormato(s: string, formatos: seq<Formato>): (r: Option<Data>)
    ensures r.None? <==> forall f :: f in formatos ==> Strptime(s, f).Failure?
    ensures r.Some? ==> exists f :: f in formatos && Strptime(s, f) == Success(r.value)
  {
    if formatos == [] then None
    else
      var r := Strptime(s, formatos[0]);
      if r.Success? then Some(r.value) else PrimeiroFormato(s, formatos[1..])
  }

  /** `parse_data`: the first of the three formats that parses the stripped text. */
  function ParseData(valor: string): (r: Result<Data, Falha>)
    ensures r.Success? ==> DataValida(r.value)
    ensures r.Failure? <==> forall f :: f in Formatos ==> Strptime(Strip(valor), f).Failure?
    ensures r.Success? ==> exists f :: f in Formatos && Strptime(Strip(valor), f) == Success(r.value)
  {
    var v := Strip(valor);
    match PrimeiroFormato(v, Formatos)
    case Some(d) => Success(d)
    case None => Failure(ValueError("Formato de data não reconhecido: " + v))
  }

  // ---------------------------------------------------------------- renderings read back

  /** Fields `strptime` can read from two- and four-digit groups. */
  predicate Representavel(d: Data)
  {
    0 <= d.ano <= 9999 && 1 <= d.mes <= 12 && 1 <= d.dia <= 31
  }

  /** `f"{n:04d}"` for a year. */
  function Pad4(n: int): string
    requires 0 <= n <= 9999
  {
    Dig2(n / 100) + Dig2(n % 100)
  }

  function Dig2(n: int): string
    requires 0 <= n <= 99
  {
    [Digito(n / 10), Digito(n % 10)]
  }

  /** `date.isoformat()`: `YYYY-MM-DD`. */
  function Iso(d: Data): string
    requires Representavel(d)
  {
    Pad4(d.ano) + "-" + Dig2(d.mes) + "-" + Dig2(d.dia)
  }

  /** `DD<sep>MM<sep>YYYY`. */
  function Dma(d: Data, sep: char): string
    requires Representavel(d)
  {
    Dig2(d.dia) + [sep] + Dig2(d.mes) + [sep] + Pad4(d.ano)
  }

  lemma Dig2Valor(s: string, i: int, n: int)
    requires 0 <= n <= 99 && 0 <= i && i + 1 < |s| && s[i..i + 2] == Dig2(n)
    ensures DigitoEm(s, i) && DigitoEm(s, i + 1) && Dois(s, i) == n
    ensures s[i] == Digito(n / 10) && s[i + 1] == Digito(n % 10)
  {
    assert s[i] == Dig2(n)[0] && s[i + 1] == Dig2(n)[1];
  }

  lemma MesDoisDigitos(s: string, i: int, mes: int)
    requires 1 <= mes <= 12 && 0 <= i && i + 1 < |s| && s[i..i + 2] == Dig2(mes)
    ensures |CasarMes(s, i)| >= 1 && CasarMes(s, i)[0] == (mes, i + 2)
  {
    Dig2Valor(s, i, mes);
  }

  lemma DiaDoisDigitos(s: string, i: int, dia: int)
    requires 1 <= dia <= 31 && 0 <= i && i + 1 < |s| && s[i..i + 2] == Dig2(dia)
    ensures |CasarDia(s, i)| >= 1 && CasarDia(s, i)[0] == (dia, i + 2)
  {
    Dig2Valor(s, i, dia);
  }

  lemma AnoQuatroDigitos(s: string, i: int, ano: int)
    requires 0 <= ano <= 9999 && 0 <= i && i + 3 < |s| && s[i..i + 4] == Pad4(ano)
    ensures CasarAno(s, i) == Some((ano, i + 4))
  {
    assert s[i..i + 2] == Dig2(ano / 100) && s[i + 2..i + 4] == Dig2(ano % 100);
    Dig2Valor(s, i, ano / 100);
    Dig2Valor(s, i + 2, ano % 100);
  }

  /** Every alternative of `%d` is one or two characters long. */
  lemma CasarDiaFins(s: string, i: int)
    ensures forall k :: 0 <= k < |CasarDia(s, i)| ==> CasarDia(s, i)[k].1 == i + 1 || CasarDia(s, i)[k].1 == i + 2
  {
  }

  /** When no day alternative is followed by the separator, the day-first format fails. */
  lemma {:induction false} DmaDiaFalha(s: string, sep: char, dias: seq<(int, int)>)
    requires forall k :: 0 <= k < |dias| ==> !CharEm(s, dias[k].1, sep)
    ensures DmaDia(s, sep, dias) == None
  {
    if dias != [] { DmaDiaFalha(s, sep, dias[1..]); }
  }

  lemma DmaFalha(s: string, sep: char)
    requires |s| >= 3 && s[1] != sep && s[2] != sep
    ensures CasarDma(s, sep) == None
  {
    CasarDiaFins(s, 0);
    DmaDiaFalha(s, sep, CasarDia(s, 0));
  }

  lemma SemEspacos(s: string)
    requires forall i :: 0 <= i < |s| ==> EhDigito(s[i]) || s[i] == '-' || s[i] == '/'
    ensures Strip(s) == s
  {
    StripSemEspacos(s);
  }

  /** Every date with representable fields written as `YYYY-MM-DD` parses back to itself when
      it exists in the calendar, and is rejected when it does not. */
  lemma ParseDataIso(d: Data)
    requires Representavel(d)
    ensures DataValida(d) ==> ParseData(Iso(d)) == Success(d)
    ensures !DataValida(d) ==> ParseData(Iso(d)).Failure?
  {
    var s := Iso(d);
    SemEspacos(s);
    CasarIsoData(d);
    if !DataValida(d) {
      IsoNaoDma(d);
    }
  }

  /** The ISO rendering of a date matches the ISO format to its end, with that date. */
  lemma CasarIsoData(d: Data)
    requires Representavel(d)
    ensures CasarIso(Iso(d)) == Some((d, 10)) && |Iso(d)| == 10
  {
    var s := Iso(d);
    AnoQuatroDigitos(s, 0, d.ano);
    assert s[5..7] == Dig2(d.mes);
    MesDoisDigitos(s, 5, d.mes);
    assert s[8..10] == Dig2(d.dia);
    DiaDoisDigitos(s, 8, d.dia);
  }

  /** The ISO rendering of a date matches neither day-first format. */
  lemma IsoNaoDma(d: Data)
    requires Representavel(d)
    ensures Strptime(Iso(d), DiaMesAno('/')).Failure? && Strptime(Iso(d), DiaMesAno('-')).Failure?
  {
    var s := Iso(d);
    assert s[0..2] == Dig2(d.ano / 100);
    Dig2Valor(s, 0, d.ano / 100);
    DmaFalha(s, '/');
    DmaFalha(s, '-');
  }

  /** The same for `DD<sep>MM<sep>YYYY` with `/` or `-`: the ISO format is tried first and
      fails, and with `-` the `/` format fails before the `-` one is tried. */
  lemma ParseDataDma(d: Data, sep: char)
    requires Representavel(d) && (sep == '/' || sep == '-')
    ensures DataValida(d) ==> ParseData(Dma(d, sep)) == Success(d)
    ensures !DataValida(d) ==> ParseData(Dma(d, sep)).Failure?
  {
    var s := Dma(d, sep);
    SemEspacos(s);
    CasarDmaData(d, sep);
    var outro := if sep == '/' then '-' else '/';
    DmaNaoOutros(d, sep, outro);
    ParseDataTres(s);
    if DataValida(d) {
      assert Strptime(s, DiaMesAno(sep)) == Success(d);
    } else {
      assert Strptime(s, DiaMesAno(sep)).Failure?;
    }
  }

  /** `parse_data` on text without surrounding blanks tries the three formats in order. */
  lemma ParseDataTres(s: string)
    requires Strip(s) == s
    ensures Strptime(s, AnoMesDia).Success? ==> ParseData(s) == Strptime(s, AnoMesDia)
    ensures Strptime(s, AnoMesDia).Failure? && Strptime(s, DiaMesAno('/')).Success? ==>
              ParseData(s) == Strptime(s, DiaMesAno('/'))
    ensures Strptime(s, AnoMesDia).Failure? && Strptime(s, DiaMesAno('/')).Failure? ==>
              (Strptime(s, DiaMesAno('-')).Success? ==> ParseData(s) == Strptime(s, DiaMesAno('-'))) &&
              (Strptime(s, DiaMesAno('-')).Failure? ==> ParseData(s).Failure?)
  {
    var resto := Formatos[1..];
    assert resto == [DiaMesAno('/'), DiaMesAno('-')];
    assert resto[1..] == [DiaMesAno('-')];
    assert resto[1..][1..] == [];
    var a, b, c := Strptime(s, AnoMesDia), Strptime(s, DiaMesAno('/')), Strptime(s, DiaMesAno('-'));
    assert PrimeiroFormato(s, Formatos) == if a.Success? then Some(a.value) else PrimeiroFormato(s, resto);
    assert PrimeiroFormato(s, resto) == if b.Success? then Some(b.value) else PrimeiroFormato(s, resto[1..]);
    assert PrimeiroFormato(s, resto[1..]) == if c.Success? then Some(c.value) else PrimeiroFormato(s, resto[1..][1..]);
    assert PrimeiroFormato(s, resto[1..][1..]) == None;
  }

  /** The day-first rendering of a date matches its own format to its end, with that date. */
  lemma CasarDmaData(d: Data, sep: char)
    requires Representavel(d) && (sep == '/' || sep == '-')
    ensures CasarDma(Dma(d, sep), sep) == Some((d, 10)) && |Dma(d, sep)| == 10
  {
    var s := Dma(d, sep);
    assert s[0..2] == Dig2(d.dia);
    DiaDoisDigitos(s, 0, d.dia);
    assert s[3..5] == Dig2(d.mes);
    MesDoisDigitos(s, 3, d.mes);
    AnoQuatroDigitos(s, 6, d.ano);
    assert DmaMes(s, sep, d.dia, CasarMes(s, 3)) == Some((d, 10));
  }

  /** The day-first rendering of a date matches neither the ISO format nor the day-first
      format with the other separator. */
  lemma DmaNaoOutros(d: Data, sep: char, outro: char)
    requires Representavel(d) && (sep == '/' || sep == '-') && outro == (if sep == '/' then '-' else '/')
    ensures Strptime(Dma(d, sep), AnoMesDia).Failure? && Strptime(Dma(d, sep), DiaMesAno(outro)).Failure?
  {
    var s := Dma(d, sep);
    assert s[0..2] == Dig2(d.dia);
    assert s[2] == sep;
    assert CasarAno(s, 0) == None;
    Dig2Valor(s, 0, d.dia);
    DmaFalha(s, outro);
  }

  /** Empty (or all-blank) text is rejected. */
  lemma ParseDataVazio(valor: string)
    requires Strip(valor) == ""
    ensures ParseData(valor).Failure?
  {
    assert CasarDia("", 0) == [];
    assert CasarDma("", '/') == None && CasarDma("", '-') == None;
    assert Strptime("", AnoMesDia).Failure?;
    assert Strptime("", DiaMesAno('/')).Failure? && Strptime("", DiaMesAno('-')).Failure?;
  }
}
