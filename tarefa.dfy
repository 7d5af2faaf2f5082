/**
 * The task entity: five text fields, a one-way status change and the
 * conversion to and from the flat record that is written to the file.
 */
module Tarefas {

  const Pendente: string := "Pendente"
  const Completa: string := "Completa"

  /** The values of a task's five fields at one moment. */
  datatype Dados = Dados(titulo: string, descricao: string, dataCriacao: string, dataVencimento: string, status: string)

  /** The string-keyed record a task is stored as. */
  type Registro = map<string, string>

  /** The five keys a written record carries. */
  const Chaves: set<string> := {"titulo", "descricao", "data_criacao", "data_vencimento", "status"}

  /** The keys `de_dicionario` reads without a default. */
  predicate TemCampos(r: Registro) {
    "titulo" in r && "descricao" in r && "data_criacao" in r && "data_vencimento" in r
  }

  /** `r.get('status', 'Pendente')`. */
  function StatusDe(r: Registro): (s: string)
    ensures "status" in r ==> s == r["status"]
    ensures "status" !in r ==> s == Pendente
  {
    if "status" in r then r["status"] else Pendente
  }

  /** The record `dicionario` builds from the fields: one key per field. */
  function Montar(d: Dados): (r: Registro)
    ensures r.Keys == Chaves && TemCampos(r)
    ensures r["titulo"] == d.titulo && r["descricao"] == d.descricao && r["status"] == d.status
    ensures r["data_criacao"] == d.dataCriacao && r["data_vencimento"] == d.dataVencimento
  {
    map["titulo" := d.titulo, "descricao" := d.descricao, "data_criacao" := d.dataCriacao,
        "data_vencimento" := d.dataVencimento, "status" := d.status]
  }

  /**
   * The fields `de_dicionario` reads from a record.  A record holding just
   * the five keys is exactly the one written for the fields read from it.
   */
  function Ler(r: Registro): (d: Dados)
    requires TemCampos(r)
    ensures r.Keys == Chaves ==> Montar(d) == r
  {
    var d := Dados(r["titulo"], r["descricao"], r["data_criacao"], r["data_vencimento"], StatusDe(r));
    assert r.Keys == Chaves ==> Montar(d) == r by {
      if r.Keys == Chaves {
        assert forall k | k in r :: Montar(d)[k] == r[k];
      }
    }
    d
  }

  /** Reading a written record gives back every field, the status included. */
  lemma LerMontar(d: Dados)
    ensures Ler(Montar(d)) == d
  {
    var r := Montar(d);
    assert r["titulo"] == d.titulo && r["descricao"] == d.descricao;
    assert r["data_criacao"] == d.dataCriacao && r["data_vencimento"] == d.dataVencimento;
    assert "status" in r && r["status"] == d.status;
  }

  /** Two tasks are written as the same record only when all their fields agree. */
  lemma MontarInjetiva(d1: Dados, d2: Dados)
    requires Montar(d1) == Montar(d2)
    ensures d1 == d2
  {
    LerMontar(d1);
    LerMontar(d2);
  }

  /** A record without a status is read as a pending task. */
  lemma StatusAusenteEhPendente(r: Registro)
    requires TemCampos(r) && "status" !in r
    ensures Ler(r).status == Pendente
  {
  }

  /** Setting the status to complete, as `mudar_status` does. */
  function Completado(d: Dados): (e: Dados)
    ensures e.status == Completa
    ensures e.titulo == d.titulo && e.descricao == d.descricao
    ensures e.dataCriacao == d.dataCriacao && e.dataVencimento == d.dataVencimento
  {
    d.(status := Completa)
  }

  /** Completing twice is completing once. */
  lemma CompletadoIdempotente(d: Dados)
    ensures Completado(Completado(d)) == Completado(d)
  {
  }

  class Tarefa {
    var titulo: string
    var descricao: string
    var dataCriacao: string
    var dataVencimento: string
    var status: string

    /** The current values of the fields. */
    function Valor(): Dados
      reads this
    {
      Dados(titulo, descricao, dataCriacao, dataVencimento, status)
    }

    constructor (titulo: string, descricao: string, dataCriacao: string, dataVencimento: string, status: string := Pendente)
      ensures Valor() == Dados(titulo, descricao, dataCriacao, dataVencimento, status)
    {
      this.titulo := titulo;
      this.descricao := descricao;
      this.dataCriacao := dataCriacao;
      this.dataVencimento := dataVencimento;
      this.status := status;
    }

    /** Marks the task complete; nothing else about it changes. */
    method MudarStatus()
      modifies this
      ensures Valor() == Completado(old(Valor()))
    {
      status := Completa;
    }

    /** The record this task is written as: reading it back gives this task's fields. */
    function Dicionario(): (r: Registro)
      reads this
      ensures r.Keys == Chaves && TemCampos(r) && Ler(r) == Valor()
    {
      LerMontar(Valor());
      Montar(Valor())
    }

    /** The task a record is read as; a missing status reads as pending. */
    constructor DeDicionario(r: Registro)
      requires TemCampos(r)
      ensures Valor() == Ler(r)
    {
      titulo := r["titulo"];
      descricao := r["descricao"];
      dataCriacao := r["data_criacao"];
      dataVencimento := r["data_vencimento"];
      status := StatusDe(r);
    }
  }

  /** Completing a task twice leaves it as completing it once does. */
  method MudarStatusDuasVezes(t: Tarefa)
    modifies t
    ensures t.Valor() == Completado(old(t.Valor()))
  {
    t.MudarStatus();
    t.MudarStatus();
    CompletadoIdempotente(old(t.Valor()));
  }

  /** No task object occurs twice in `ts`. */
  predicate Distintas(ts: seq<Tarefa>) {
    forall i, j :: 0 <= i < j < |ts| ==> ts[i] != ts[j]
  }

  lemma DistintasAnexada(ts: seq<Tarefa>, t: Tarefa)
    requires Distintas(ts) && t !in ts
    ensures Distintas(ts + [t])
  {
  }

  lemma DistintasSemPosicao(ts: seq<Tarefa>, k: nat)
    requires Distintas(ts) && k < |ts|
    ensures Distintas(ts[..k] + ts[k + 1..])
  {
    var r := ts[..k] + ts[k + 1..];
    forall i, j | 0 <= i < j < |r|
      ensures r[i] != r[j]
    {
      var i', j' := if i < k then i else i + 1, if j < k then j else j + 1;
      assert r[i] == ts[i'] && r[j] == ts[j'];
    }
  }

  /** The fields of every task in `ts`, in order. */
  function Valores(ts: seq<Tarefa>): (r: seq<Dados>)
    reads ts
    ensures |r| == |ts|
    ensures forall i {:trigger r[i]} :: 0 <= i < |ts| ==> r[i] == ts[i].Valor()
  {
    if ts == [] then [] else [ts[0].Valor()] + Valores(ts[1..])
  }

  lemma ValoresAnexado(ts: seq<Tarefa>, t: Tarefa)
    ensures Valores(ts + [t]) == Valores(ts) + [t.Valor()]
  {
    ValoresConcatenados(ts, [t]);
  }

  lemma {:induction false} ValoresConcatenados(a: seq<Tarefa>, b: seq<Tarefa>)
    ensures Valores(a + b) == Valores(a) + Valores(b)
  {
    var r := Valores(a + b);
    forall i | 0 <= i < |r|
      ensures r[i] == (Valores(a) + Valores(b))[i]
    {
      if i < |a| {
        assert (a + b)[i] == a[i];
      } else {
        assert (a + b)[i] == b[i - |a|];
      }
    }
  }
}
