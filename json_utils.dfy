/**
 * Date validation and the conversion of the whole task list to and from
 * the records stored in the file.  The file itself is not modelled: its
 * content is the sequence of records, or None when it cannot be read.
 */
module JsonUtils {
  import opened Opcional
  import opened Calendario
  import opened Tarefas

  /**
   * True exactly when `datetime.strptime(s, "%Y-%m-%d")` succeeds, which is
   * when `s` spells some real date.
   */
  function ValidarData(s: string): (ok: bool)
    ensures ok <==> exists d {:trigger Grafias(d)} :: DataReal(d) && s in Grafias(d)
  {
    AnalisavelSeGrafia(s);
    AnalisarData(s).Some?
  }

  /**
   * True when both strings are dates and the due date is not before the
   * creation date; false when either does not parse.
   */
  function ValidarDataVencimento(criacao: string, vencimento: string): (ok: bool)
    ensures ok ==> ValidarData(criacao) && ValidarData(vencimento)
  {
    match (AnalisarData(criacao), AnalisarData(vencimento))
    case (Some(c), Some(v)) => AntesOuIgual(c, v)
    case _ => false
  }

  /** On spellings of real dates, the due-date check compares day numbers. */
  lemma {:induction false} VencimentoPorDias(criacao: string, vencimento: string, c: Data, v: Data)
    requires DataReal(c) && criacao in Grafias(c)
    requires DataReal(v) && vencimento in Grafias(v)
    ensures ValidarDataVencimento(criacao, vencimento) <==> Ordinal(c) <= Ordinal(v)
  {
    GrafiaAnalisada(c, criacao);
    GrafiaAnalisada(v, vencimento);
  }

  /** A task may fall due on the day it is created. */
  lemma VencimentoReflexivo(data: string)
    ensures ValidarDataVencimento(data, data) <==> ValidarData(data)
  {
    if ValidarData(data) {
      AntesOuIgualReflexiva(AnalisarData(data).value);
    }
  }

  lemma VencimentoTransitivo(a: string, b: string, c: string)
    requires ValidarDataVencimento(a, b) && ValidarDataVencimento(b, c)
    ensures ValidarDataVencimento(a, c)
  {
    AntesOuIgualTransitiva(AnalisarData(a).value, AnalisarData(b).value, AnalisarData(c).value);
  }

  /** Same-day due dates pass, earlier ones fail, and the spelling of a day does not matter. */
  lemma ExemplosDeVencimento()
    ensures ValidarDataVencimento("2024-01-01", "2024-01-01")
    ensures !ValidarDataVencimento("2024-01-01", "2023-12-31")
    ensures ValidarDataVencimento("2024-01-05", "2024-1-5")
  {
    ExemplosDeVirada();
    ExemplosDeGrafiasCurtas();
  }

  // ---------------------------------------------------------------------
  // Saving and loading, as the list comprehensions over the records.
  // ---------------------------------------------------------------------

  /** The records `salvar_tarefas` writes, one per task, in order. */
  function Registros(ts: seq<Tarefa>): (r: seq<Registro>)
    reads ts
    ensures |r| == |ts|
    ensures forall i {:trigger r[i]} :: 0 <= i < |ts| ==> r[i] == ts[i].Dicionario()
  {
    if ts == [] then [] else [ts[0].Dicionario()] + Registros(ts[1..])
  }

  /** Every record can be read as a task. */
  predicate Legiveis(rs: seq<Registro>) {
    forall i :: 0 <= i < |rs| ==> TemCampos(rs[i])
  }

  /** The fields of the tasks `carregar_tarefas` builds from `rs`, in order. */
  function LerTodos(rs: seq<Registro>): (r: seq<Dados>)
    requires Legiveis(rs)
    ensures |r| == |rs|
    ensures forall i :: 0 <= i < |rs| ==> r[i] == Ler(rs[i])
  {
    if rs == [] then [] else [Ler(rs[0])] + LerTodos(rs[1..])
  }

  /** The fields of the tasks loaded from a file; an unreadable or missing file loads as no tasks. */
  function Carregado(arquivo: Option<seq<Registro>>): (r: seq<Dados>)
    requires arquivo.Some? ==> Legiveis(arquivo.value)
    ensures arquivo.None? ==> r == []
    ensures arquivo.Some? ==> |r| == |arquivo.value|
    ensures arquivo.Some? ==> forall i :: 0 <= i < |r| ==> r[i] == Ler(arquivo.value[i])
  {
    match arquivo
    case None => []
    case Some(rs) => LerTodos(rs)
  }

  /** Loading what was saved gives the same tasks, field by field and in the same order. */
  lemma SalvarCarregar(ts: seq<Tarefa>)
    ensures Legiveis(Registros(ts)) && Carregado(Some(Registros(ts))) == Valores(ts)
  {
  }

  /** Builds one fresh task per record, in order. */
  method CarregarTarefas(arquivo: Option<seq<Registro>>) returns (ts: seq<Tarefa>)
    requires arquivo.Some? ==> Legiveis(arquivo.value)
    ensures Distintas(ts) && forall i :: 0 <= i < |ts| ==> fresh(ts[i])
    ensures Valores(ts) == Carregado(arquivo)
  {
    ts := [];
    if arquivo.None? {
      return;
    }
    var rs := arquivo.value;
    var i := 0;
    while i < |rs|
      invariant 0 <= i <= |rs|
      invariant |ts| == i && Distintas(ts)
      invariant forall j :: 0 <= j < i ==> fresh(ts[j])
      invariant forall j :: 0 <= j < i ==> ts[j].Valor() == Ler(rs[j])
    {
      var t := new Tarefa.DeDicionario(rs[i]);
      ts := ts + [t];
      i := i + 1;
    }
  }
}
