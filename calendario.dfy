/**
 * The calendar rule that `datetime.strptime(s, "%Y-%m-%d")` applies:
 * the textual grammar of the three directives and the proleptic Gregorian
 * check that `datetime.date` performs on the numbers it reads.
 */
module Calendario {
  import opened Opcional

  /** A (year, month, day) triple as `datetime` holds it. */
  datatype Data = Data(ano: int, mes: int, dia: int)

  const AnoMinimo := 1
  const AnoMaximo := 9999

  predicate Bissexto(ano: int) {
    ano % 4 == 0 && (ano % 100 != 0 || ano % 400 == 0)
  }

  function DiasNoMes(ano: int, mes: int): (n: int)
    requires 1 <= mes <= 12
    ensures 28 <= n <= 31
    ensures mes == 2 ==> (n == 29 <==> Bissexto(ano))
  {
    if mes == 2 then (if Bissexto(ano) then 29 else 28)
    else if mes == 4 || mes == 6 || mes == 9 || mes == 11 then 30
    else 31
  }

  /** A date that `datetime.date(ano, mes, dia)` accepts. */
  predicate DataReal(d: Data) {
    AnoMinimo <= d.ano <= AnoMaximo && 1 <= d.mes <= 12 && 1 <= d.dia <= DiasNoMes(d.ano, d.mes)
  }

  /** Strictly earlier, lexicographically on (year, month, day). */
  predicate Antes(a: Data, b: Data) {
    a.ano < b.ano || (a.ano == b.ano && (a.mes < b.mes || (a.mes == b.mes && a.dia < b.dia)))
  }

  /**
   * `datetime` comparison `a <= b`: lexicographic on (year, month, day).
   * On real dates it is the calendar order, that of the day numbers.
   */
  function AntesOuIgual(a: Data, b: Data): (r: bool)
    ensures DataReal(a) && DataReal(b) ==> (r <==> Ordinal(a) <= Ordinal(b))
  {
    var r := a.ano < b.ano || (a.ano == b.ano && (a.mes < b.mes || (a.mes == b.mes && a.dia <= b.dia)));
    if DataReal(a) && DataReal(b) && Antes(a, b) then OrdinalEstrito(a, b); r
    else if DataReal(a) && DataReal(b) && Antes(b, a) then OrdinalEstrito(b, a); r
    else r
  }

  // ---------------------------------------------------------------------
  // The grammar of "%Y-%m-%d".  `%Y` is exactly four digits, `%m` one of
  // 1[0-2] | 0[1-9] | [1-9], `%d` one of 3[01] | [12]d | 0[1-9] | [1-9] | " "[1-9],
  // and the whole string must be consumed.
  // ---------------------------------------------------------------------

  predicate EhDigito(c: char) { '0' <= c <= '9' }

  function ValorDigito(c: char): (v: int)
    requires EhDigito(c)
    ensures 0 <= v <= 9
  {
    c as int - '0' as int
  }

  function Digito(v: int): (c: char)
    requires 0 <= v <= 9
    ensures EhDigito(c) && ValorDigito(c) == v
  {
    ('0' as int + v) as char
  }

  /** The number two digit characters spell. */
  function Valor2(c1: char, c2: char): (v: int)
    requires EhDigito(c1) && EhDigito(c2)
    ensures 0 <= v <= 99
  {
    10 * ValorDigito(c1) + ValorDigito(c2)
  }

  function AnalisarAno(t: string): (r: Option<int>)
    ensures r.Some? ==> 0 <= r.value <= 9999
  {
    if |t| == 4 && EhDigito(t[0]) && EhDigito(t[1]) && EhDigito(t[2]) && EhDigito(t[3]) then
      Some(100 * Valor2(t[0], t[1]) + Valor2(t[2], t[3]))
    else None
  }

  function AnalisarMes(t: string): (r: Option<int>)
    ensures r.Some? ==> 1 <= r.value <= 12
  {
    if |t| == 1 && '1' <= t[0] <= '9' then Some(ValorDigito(t[0]))
    else if |t| == 2 && t[0] == '1' && '0' <= t[1] <= '2' then Some(10 + ValorDigito(t[1]))
    else if |t| == 2 && t[0] == '0' && '1' <= t[1] <= '9' then Some(ValorDigito(t[1]))
    else None
  }

  function AnalisarDia(t: string): (r: Option<int>)
    ensures r.Some? ==> 1 <= r.value <= 31
  {
    if |t| == 1 && '1' <= t[0] <= '9' then Some(ValorDigito(t[0]))
    else if |t| == 2 && t[0] == ' ' && '1' <= t[1] <= '9' then Some(ValorDigito(t[1]))
    else if |t| == 2 && t[0] == '3' && '0' <= t[1] <= '1' then Some(30 + ValorDigito(t[1]))
    else if |t| == 2 && '1' <= t[0] <= '2' && EhDigito(t[1]) then Some(10 * ValorDigito(t[0]) + ValorDigito(t[1]))
    else if |t| == 2 && t[0] == '0' && '1' <= t[1] <= '9' then Some(ValorDigito(t[1]))
    else None
  }

  /**
   * Splits `s` into the year, month and day fields.  No month spelling
   * contains '-', so the month ends at the first '-' after position 5.
   */
  function Separar(s: string): (r: Option<(string, string, string)>)
    ensures r.Some? ==> s == r.value.0 + "-" + r.value.1 + "-" + r.value.2
    ensures r.Some? ==> |r.value.0| == 4 && 1 <= |r.value.1| <= 2 && '-' !in r.value.1
  {
    if |s| >= 7 && s[4] == '-' && s[6] == '-' && s[5] != '-' then
      Some((s[..4], s[5..6], s[7..]))
    else if |s| >= 8 && s[4] == '-' && s[5] != '-' && s[6] != '-' && s[7] == '-' then
      Some((s[..4], s[5..7], s[8..]))
    else None
  }

  /** What `datetime.strptime(s, "%Y-%m-%d")` yields, or None where it raises ValueError. */
  function AnalisarData(s: string): (r: Option<Data>)
    ensures r.Some? ==> DataReal(r.value)
  {
    match Separar(s)
    case None => None
    case Some((a, m, d)) =>
      match (AnalisarAno(a), AnalisarMes(m), AnalisarDia(d))
      case (Some(ano), Some(mes), Some(dia)) =>
        if DataReal(Data(ano, mes, dia)) then Some(Data(ano, mes, dia)) else None
      case _ => None
  }

  // ---------------------------------------------------------------------
  // Independent reference: the spellings of a date, built from its numbers.
  // ---------------------------------------------------------------------

  /** The four-digit, zero-padded spelling of a year. */
  function Ano4(ano: int): (t: string)
    requires 0 <= ano <= 9999
  {
    Dois(ano / 100) + Dois(ano % 100)
  }

  /** The two-digit, zero-padded spelling of a month or day. */
  function Dois(n: int): (t: string)
    requires 0 <= n <= 99
  {
    [Digito(n / 10), Digito(n % 10)]
  }

  /** Every spelling `%m` accepts for month `mes`. */
  function GrafiasMes(mes: int): set<string>
    requires 1 <= mes <= 12
  {
    {Dois(mes)} + (if mes <= 9 then {[Digito(mes)]} else {})
  }

  /** Every spelling `%d` accepts for day `dia`. */
  function GrafiasDia(dia: int): set<string>
    requires 1 <= dia <= 31
  {
    {Dois(dia)} + (if dia <= 9 then {[Digito(dia)], [' ', Digito(dia)]} else {})
  }

  /** Every string that denotes the date `d` under "%Y-%m-%d". */
  function Grafias(d: Data): set<string>
    requires DataReal(d)
  {
    set m, t | m in GrafiasMes(d.mes) && t in GrafiasDia(d.dia) :: Ano4(d.ano) + "-" + m + "-" + t
  }

  /** The strict ISO 8601 spelling YYYY-MM-DD, one of the spellings above. */
  function Iso(d: Data): (s: string)
    requires DataReal(d)
    ensures s in Grafias(d) && |s| == 10
  {
    assert Dois(d.mes) in GrafiasMes(d.mes) && Dois(d.dia) in GrafiasDia(d.dia);
    Ano4(d.ano) + "-" + Dois(d.mes) + "-" + Dois(d.dia)
  }

  // ---------------------------------------------------------------------
  // Independent reference for the order: the number of days since 0001-01-01.
  // ---------------------------------------------------------------------

  function DiasNoAno(ano: int): int {
    if Bissexto(ano) then 366 else 365
  }

  function DiasAntesDoAno(ano: int): int
    decreases ano
  {
    if ano <= 1 then 0 else DiasAntesDoAno(ano - 1) + DiasNoAno(ano - 1)
  }

  /** Days in the year before the first of `mes`, as datetime's month table gives them. */
  function DiasAntesDoMes(ano: int, mes: int): int
    requires 1 <= mes <= 12
  {
    [0, 31, 59, 90, 120, 151, 181, 212, 243, 273, 304, 334][mes - 1]
      + (if mes > 2 && Bissexto(ano) then 1 else 0)
  }

  /** Day number of `d`, counting 0001-01-01 as day 1 (`date.toordinal`). */
  function Ordinal(d: Data): int
    requires DataReal(d)
  {
    DiasAntesDoAno(d.ano) + DiasAntesDoMes(d.ano, d.mes) + d.dia
  }

  // ---------------------------------------------------------------------
  // The parser reads exactly the spellings of real dates.
  // ---------------------------------------------------------------------

  lemma DigitoDeValor(c: char)
    requires EhDigito(c)
    ensures Digito(ValorDigito(c)) == c
  {
  }

  lemma DoisIdaVolta(n: int)
    requires 0 <= n <= 99
    ensures Valor2(Dois(n)[0], Dois(n)[1]) == n
  {
  }

  lemma DoisUnico(c1: char, c2: char)
    requires EhDigito(c1) && EhDigito(c2)
    ensures Dois(Valor2(c1, c2)) == [c1, c2]
  {
    var v := Valor2(c1, c2);
    assert v / 10 == ValorDigito(c1) && v % 10 == ValorDigito(c2);
    DigitoDeValor(c1);
    DigitoDeValor(c2);
  }

  lemma Centenas(h: int, l: int)
    requires 0 <= h && 0 <= l < 100
    ensures (100 * h + l) / 100 == h && (100 * h + l) % 100 == l
  {
  }

  lemma AnoIdaVolta(ano: int)
    requires 0 <= ano <= 9999
    ensures AnalisarAno(Ano4(ano)) == Some(ano)
  {
    var t := Ano4(ano);
    assert t[..2] == Dois(ano / 100) && t[2..] == Dois(ano % 100);
    DoisIdaVolta(ano / 100);
    DoisIdaVolta(ano % 100);
  }

  lemma AnoUnico(t: string)
    requires AnalisarAno(t).Some?
    ensures t == Ano4(AnalisarAno(t).value)
  {
    var h, l := Valor2(t[0], t[1]), Valor2(t[2], t[3]);
    Centenas(h, l);
    DoisUnico(t[0], t[1]);
    DoisUnico(t[2], t[3]);
    assert t == [t[0], t[1]] + [t[2], t[3]];
  }

  lemma MesIdaVolta(mes: int, t: string)
    requires 1 <= mes <= 12 && t in GrafiasMes(mes)
    ensures AnalisarMes(t) == Some(mes)
  {
  }

  lemma MesUnico(t: string)
    requires AnalisarMes(t).Some?
    ensures t in GrafiasMes(AnalisarMes(t).value)
  {
    if |t| == 1 {
      DigitoDeValor(t[0]);
      assert t == [t[0]];
    } else {
      assert AnalisarMes(t).value == Valor2(t[0], t[1]);
      DoisUnico(t[0], t[1]);
      assert t == [t[0], t[1]];
    }
  }

  lemma DiaIdaVolta(dia: int, t: string)
    requires 1 <= dia <= 31 && t in GrafiasDia(dia)
    ensures AnalisarDia(t) == Some(dia)
  {
  }

  lemma DiaUnico(t: string)
    requires AnalisarDia(t).Some?
    ensures t in GrafiasDia(AnalisarDia(t).value)
  {
    if |t| == 1 {
      DigitoDeValor(t[0]);
      assert t == [t[0]];
    } else if t[0] == ' ' {
      DigitoDeValor(t[1]);
      assert t == [' ', t[1]];
    } else {
      assert AnalisarDia(t).value == Valor2(t[0], t[1]);
      DoisUnico(t[0], t[1]);
      assert t == [t[0], t[1]];
    }
  }

  lemma SepararGrafia(a: string, m: string, t: string)
    requires |a| == 4 && 1 <= |m| <= 2 && '-' !in m
    ensures Separar(a + "-" + m + "-" + t) == Some((a, m, t))
  {
    var s := a + "-" + m + "-" + t;
    if |m| == 1 {
      assert s[..4] == a && s[5..6] == m && s[7..] == t;
    } else {
      assert m[0] != '-' && m[1] != '-';
      assert s[..4] == a && s[5..7] == m && s[8..] == t;
    }
  }

  /** Every spelling of a real date parses back to that date. */
  lemma {:induction false} GrafiaAnalisada(d: Data, s: string)
    requires DataReal(d) && s in Grafias(d)
    ensures AnalisarData(s) == Some(d)
  {
    var m, t :| m in GrafiasMes(d.mes) && t in GrafiasDia(d.dia) && s == Ano4(d.ano) + "-" + m + "-" + t;
    assert '-' !in m;
    SepararGrafia(Ano4(d.ano), m, t);
    AnoIdaVolta(d.ano);
    MesIdaVolta(d.mes, m);
    DiaIdaVolta(d.dia, t);
  }

  /** Whatever parses is a spelling of the (real) date it parses to. */
  lemma {:induction false} AnalisadaEhGrafia(s: string)
    requires AnalisarData(s).Some?
    ensures DataReal(AnalisarData(s).value) && s in Grafias(AnalisarData(s).value)
  {
    var d := AnalisarData(s).value;
    var (a, m, t) := Separar(s).value;
    AnoUnico(a);
    MesUnico(m);
    DiaUnico(t);
    assert s == Ano4(d.ano) + "-" + m + "-" + t;
  }

  /** A string parses exactly when it spells some real date. */
  lemma AnalisavelSeGrafia(s: string)
    ensures AnalisarData(s).Some? <==> exists d {:trigger Grafias(d)} :: DataReal(d) && s in Grafias(d)
  {
    if AnalisarData(s).Some? {
      AnalisadaEhGrafia(s);
    } else {
      forall d | DataReal(d) && s in Grafias(d)
        ensures false
      {
        GrafiaAnalisada(d, s);
      }
    }
  }

  /** The parser and the spellings agree exactly. */
  lemma AnalisarDataCorreta(s: string, d: Data)
    ensures AnalisarData(s) == Some(d) <==> DataReal(d) && s in Grafias(d)
  {
    if AnalisarData(s) == Some(d) { AnalisadaEhGrafia(s); }
    if DataReal(d) && s in Grafias(d) { GrafiaAnalisada(d, s); }
  }

  // ---------------------------------------------------------------------
  // The order on dates.
  // ---------------------------------------------------------------------

  lemma AntesOuIgualReflexiva(a: Data)
    ensures AntesOuIgual(a, a)
  {
  }

  lemma AntesOuIgualTransitiva(a: Data, b: Data, c: Data)
    requires AntesOuIgual(a, b) && AntesOuIgual(b, c)
    ensures AntesOuIgual(a, c)
  {
  }

  lemma AntesOuIgualAntissimetrica(a: Data, b: Data)
    requires AntesOuIgual(a, b) && AntesOuIgual(b, a)
    ensures a == b
  {
  }

  lemma AntesOuIgualTotal(a: Data, b: Data)
    ensures AntesOuIgual(a, b) || AntesOuIgual(b, a)
  {
  }

  /** Each month ends no later than the next one begins, and December ends the year. */
  lemma FimDoMes(ano: int, mes: int)
    requires 1 <= mes <= 12
    ensures mes < 12 ==> DiasAntesDoMes(ano, mes) + DiasNoMes(ano, mes) == DiasAntesDoMes(ano, mes + 1)
    ensures mes == 12 ==> DiasAntesDoMes(ano, mes) + DiasNoMes(ano, mes) == DiasNoAno(ano)
  {
  }

  lemma {:induction false} MesesCrescentes(ano: int, m1: int, m2: int)
    requires 1 <= m1 < m2 <= 12
    ensures DiasAntesDoMes(ano, m1) + DiasNoMes(ano, m1) <= DiasAntesDoMes(ano, m2)
    decreases m2 - m1
  {
    FimDoMes(ano, m1);
    if m1 + 1 < m2 {
      MesesCrescentes(ano, m1 + 1, m2);
      FimDoMes(ano, m1 + 1);
    }
  }

  lemma {:induction false} AnosCrescentes(a1: int, a2: int)
    requires 1 <= a1 < a2
    ensures DiasAntesDoAno(a1) + DiasNoAno(a1) <= DiasAntesDoAno(a2)
    decreases a2 - a1
  {
    if a1 + 1 < a2 {
      AnosCrescentes(a1 + 1, a2);
    }
  }

  lemma DiaDentroDoAno(d: Data)
    requires DataReal(d)
    ensures DiasAntesDoMes(d.ano, d.mes) + d.dia <= DiasNoAno(d.ano)
  {
    FimDoMes(d.ano, d.mes);
    if d.mes < 12 {
      MesesCrescentes(d.ano, d.mes, 12);
      FimDoMes(d.ano, 12);
    }
  }

  /** A date strictly before another has a strictly smaller day number. */
  lemma OrdinalEstrito(a: Data, b: Data)
    requires DataReal(a) && DataReal(b) && Antes(a, b)
    ensures Ordinal(a) < Ordinal(b)
  {
    if a.ano < b.ano {
      DiaDentroDoAno(a);
      AnosCrescentes(a.ano, b.ano);
    } else if a.mes < b.mes {
      MesesCrescentes(a.ano, a.mes, b.mes);
    }
  }

  // ---------------------------------------------------------------------
  // What `strptime` makes of some concrete strings.
  // ---------------------------------------------------------------------

  /** The leap-year rule: every fourth year has a 29 February, centuries divisible by 400 included. */
  lemma ExemplosBissextos()
    ensures AnalisarData("2024-02-29") == Some(Data(2024, 2, 29))
    ensures AnalisarData("2000-02-29") == Some(Data(2000, 2, 29))
  {
    SepararGrafia("2024", "02", "29");
    assert "2024" + "-" + "02" + "-" + "29" == "2024-02-29";
    SepararGrafia("2000", "02", "29");
    assert "2000" + "-" + "02" + "-" + "29" == "2000-02-29";
    assert AnalisarMes("02") == Some(2) && AnalisarDia("29") == Some(29);
    assert AnalisarAno("2024") == Some(2024) && AnalisarAno("2000") == Some(2000);
  }

  /** Other years, and centuries not divisible by 400, have no 29 February. */
  lemma ExemplosNaoBissextos()
    ensures AnalisarData("2023-02-29") == None && AnalisarData("1900-02-29") == None
  {
    SepararGrafia("2023", "02", "29");
    assert "2023" + "-" + "02" + "-" + "29" == "2023-02-29";
    SepararGrafia("1900", "02", "29");
    assert "1900" + "-" + "02" + "-" + "29" == "1900-02-29";
    assert AnalisarMes("02") == Some(2) && AnalisarDia("29") == Some(29);
    assert AnalisarAno("2023") == Some(2023) && AnalisarAno("1900") == Some(1900);
  }

  /** Numbers outside the calendar are rejected. */
  lemma ExemplosForaDoCalendario()
    ensures AnalisarData("2024-01-15") == Some(Data(2024, 1, 15))
    ensures AnalisarData("2024-02-30") == None && AnalisarData("2024-13-01") == None
    ensures AnalisarData("0000-01-01") == None
  {
    SepararGrafia("2024", "01", "15");
    assert "2024" + "-" + "01" + "-" + "15" == "2024-01-15";
    SepararGrafia("2024", "02", "30");
    assert "2024" + "-" + "02" + "-" + "30" == "2024-02-30";
    SepararGrafia("2024", "13", "01");
    assert "2024" + "-" + "13" + "-" + "01" == "2024-13-01";
    SepararGrafia("0000", "01", "01");
    assert "0000" + "-" + "01" + "-" + "01" == "0000-01-01";
    assert AnalisarAno("2024") == Some(2024) && AnalisarAno("0000") == Some(0);
    assert AnalisarMes("01") == Some(1) && AnalisarMes("02") == Some(2) && AnalisarMes("13") == None;
    assert AnalisarDia("15") == Some(15) && AnalisarDia("30") == Some(30);
  }

  /** Text that is not laid out as year-month-day is rejected. */
  lemma ExemplosDeFormato()
    ensures AnalisarData("not-a-date") == None && AnalisarData("24-01-15") == None
    ensures AnalisarData("2024-01-15 ") == None && AnalisarData("2024/01/15") == None
  {
    assert Separar("not-a-date") == None by {
      assert "not-a-date"[4] == 'a';
    }
    assert Separar("24-01-15") == None;
    SepararGrafia("2024", "01", "15 ");
    assert "2024" + "-" + "01" + "-" + "15 " == "2024-01-15 ";
    assert AnalisarDia("15 ") == None;
    assert Separar("2024/01/15") == None;
  }

  /** `strptime` also takes one-digit months and days, and a day padded with a space. */
  lemma ExemplosDeGrafiasCurtas()
    ensures AnalisarData("2024-1-5") == Some(Data(2024, 1, 5))
    ensures AnalisarData("2024-01- 5") == Some(Data(2024, 1, 5))
    ensures AnalisarData("2024-001-05") == None && AnalisarData("2024- 1-05") == None
  {
    SepararGrafia("2024", "1", "5");
    assert "2024" + "-" + "1" + "-" + "5" == "2024-1-5";
    SepararGrafia("2024", "01", " 5");
    assert "2024" + "-" + "01" + "-" + " 5" == "2024-01- 5";
    assert Separar("2024-001-05") == None by {
      assert "2024-001-05"[6] == '0' && "2024-001-05"[7] == '1';
    }
    SepararGrafia("2024", " 1", "05");
    assert "2024" + "-" + " 1" + "-" + "05" == "2024- 1-05";
    assert AnalisarAno("2024") == Some(2024);
    assert AnalisarMes("1") == Some(1) && AnalisarMes("01") == Some(1);
    assert AnalisarMes(" 1") == None;
    assert AnalisarDia("5") == Some(5) && AnalisarDia(" 5") == Some(5);
  }

  /** Two days either side of a new year, and a zero-padded day. */
  lemma ExemplosDeVirada()
    ensures AnalisarData("2023-12-31") == Some(Data(2023, 12, 31))
    ensures AnalisarData("2024-01-01") == Some(Data(2024, 1, 1))
    ensures AnalisarData("2024-01-05") == Some(Data(2024, 1, 5))
  {
    SepararGrafia("2023", "12", "31");
    assert "2023" + "-" + "12" + "-" + "31" == "2023-12-31";
    SepararGrafia("2024", "01", "01");
    assert "2024" + "-" + "01" + "-" + "01" == "2024-01-01";
    SepararGrafia("2024", "01", "05");
    assert "2024" + "-" + "01" + "-" + "05" == "2024-01-05";
    assert AnalisarAno("2024") == Some(2024) && AnalisarAno("2023") == Some(2023);
    assert AnalisarMes("01") == Some(1) && AnalisarMes("12") == Some(12);
    assert AnalisarDia("01") == Some(1) && AnalisarDia("31") == Some(31) && AnalisarDia("05") == Some(5);
  }
}
