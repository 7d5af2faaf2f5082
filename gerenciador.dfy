/**
 * The task manager: the session's list of task objects and the three
 * operations that change it.  The console prompts become parameters and
 * the printed messages become results; each successful change rewrites
 * the whole file, modelled as the field `arquivo`.
 */
module Gerenciador {
  import opened Opcional
  import opened Tarefas
  import opened JsonUtils

  /** The index of the first task titled `titulo`, as the generator passed to `next` finds it. */
  function PrimeiraOcorrencia(ts: seq<Tarefa>, titulo: string): (r: Option<nat>)
    reads ts
    ensures r.None? <==> forall i :: 0 <= i < |ts| ==> ts[i].titulo != titulo
    ensures r.Some? ==> r.value < |ts| && ts[r.value].titulo == titulo
    ensures r.Some? ==> forall i :: 0 <= i < r.value ==> ts[i].titulo != titulo
  {
    if ts == [] then None
    else if ts[0].titulo == titulo then Some(0)
    else match PrimeiraOcorrencia(ts[1..], titulo)
      case None => None
      case Some(k) => Some(k + 1)
  }

  /** The three outcomes of adding a task, one per message the source prints. */
  datatype ResultadoAdicao = DataInvalida | VencimentoAnterior | Adicionada

  class GerenciadorDeTarefas {
    var tarefas: seq<Tarefa>
    /** The records last written to the file, or None while there is no readable file. */
    var arquivo: Option<seq<Registro>>

    /** Every task object is held once: tasks are created fresh and never shared. */
    ghost predicate Valid()
      reads this
    {
      Distintas(tarefas)
    }

    /** Starts a session with the tasks loaded from the file. */
    constructor (arquivo: Option<seq<Registro>>)
      requires arquivo.Some? ==> Legiveis(arquivo.value)
      ensures Valid() && this.arquivo == arquivo
      ensures Valores(tarefas) == Carregado(arquivo)
      ensures forall i :: 0 <= i < |tarefas| ==> fresh(tarefas[i])
    {
      var ts := CarregarTarefas(arquivo);
      tarefas := ts;
      this.arquivo := arquivo;
    }

    /** Rewrites the file with every task, in order. */
    method SalvarTarefasEmJson()
      modifies this`arquivo
      ensures arquivo == Some(Registros(tarefas))
    {
      arquivo := Some(Registros(tarefas));
    }

    /**
     * Validates both dates, then their order, then appends a pending task
     * and saves.  Titles already in use are not rejected.
     */
    method AdicionarTarefa(titulo: string, descricao: string, dataCriacao: string, dataVencimento: string)
      returns (r: ResultadoAdicao)
      requires Valid()
      modifies this
      ensures Valid()
      ensures r == DataInvalida <==> !ValidarData(dataCriacao) || !ValidarData(dataVencimento)
      ensures r == VencimentoAnterior <==>
        ValidarData(dataCriacao) && ValidarData(dataVencimento) && !ValidarDataVencimento(dataCriacao, dataVencimento)
      ensures r != Adicionada ==> tarefas == old(tarefas) && arquivo == old(arquivo)
      ensures r == Adicionada ==>
        |tarefas| == |old(tarefas)| + 1 && tarefas[..|old(tarefas)|] == old(tarefas)
        && fresh(tarefas[|old(tarefas)|])
        && Valores(tarefas) == old(Valores(tarefas)) + [Dados(titulo, descricao, dataCriacao, dataVencimento, Pendente)]
        && arquivo == Some(Registros(tarefas))
    {
      if !ValidarData(dataCriacao) || !ValidarData(dataVencimento) {
        return DataInvalida;
      }
      if !ValidarDataVencimento(dataCriacao, dataVencimento) {
        return VencimentoAnterior;
      }
      ghost var valoresAntes := Valores(tarefas);
      var tarefa := new Tarefa(titulo, descricao, dataCriacao, dataVencimento);
      assert Valores(tarefas) == valoresAntes;
      Anexar(tarefa);
      assert tarefas[..|old(tarefas)|] == old(tarefas);
      r := Adicionada;
    }

    /** Appends `tarefa` to the list and saves the list. */
    method Anexar(tarefa: Tarefa)
      requires Valid() && tarefa !in tarefas
      modifies this
      ensures Valid() && tarefas == old(tarefas) + [tarefa]
      ensures Valores(tarefas) == old(Valores(tarefas) + [tarefa.Valor()])
      ensures arquivo == Some(Registros(tarefas))
    {
      ghost var antes := tarefas;
      DistintasAnexada(antes, tarefa);
      var novas := tarefas + [tarefa];
      ValoresAnexado(antes, tarefa);
      ghost var valoresDepois := Valores(novas);
      tarefas := novas;
      assert Valores(tarefas) == valoresDepois;
      SalvarTarefasEmJson();
      assert Valores(tarefas) == valoresDepois by {
        forall i | 0 <= i < |tarefas| ensures Valores(tarefas)[i] == valoresDepois[i] { }
      }
    }

    /** Removes the first task titled `titulo` and saves; without one, changes nothing. */
    method RemoverTarefa(titulo: string) returns (removida: bool)
      requires Valid()
      modifies this
      ensures Valid()
      ensures removida <==> old(PrimeiraOcorrencia(tarefas, titulo)).Some?
      ensures !removida ==> tarefas == old(tarefas) && arquivo == old(arquivo)
      ensures removida ==>
        var k := old(PrimeiraOcorrencia(tarefas, titulo)).value;
        tarefas == old(tarefas[..k] + tarefas[k + 1..])
        && Valores(tarefas) == old(Valores(tarefas)[..k] + Valores(tarefas)[k + 1..])
        && arquivo == Some(Registros(tarefas))
    {
      var encontrada := PrimeiraOcorrencia(tarefas, titulo);
      if encontrada.None? {
        return false;
      }
      Retirar(encontrada.value);
      removida := true;
    }

    /** Drops the task at position `k` from the list and saves the list. */
    method Retirar(k: nat)
      requires Valid() && k < |tarefas|
      modifies this
      ensures Valid() && tarefas == old(tarefas[..k] + tarefas[k + 1..])
      ensures Valores(tarefas) == old(Valores(tarefas)[..k] + Valores(tarefas)[k + 1..])
      ensures arquivo == Some(Registros(tarefas))
    {
      ghost var antes := tarefas;
      DistintasSemPosicao(antes, k);
      var restantes := tarefas[..k] + tarefas[k + 1..];
      ValoresConcatenados(antes[..k], antes[k + 1..]);
      ghost var valoresDepois := Valores(restantes);
      assert valoresDepois == Valores(antes)[..k] + Valores(antes)[k + 1..];
      tarefas := restantes;
      assert Valores(tarefas) == valoresDepois;
      SalvarTarefasEmJson();
      assert Valores(tarefas) == valoresDepois by {
        forall i | 0 <= i < |tarefas| ensures Valores(tarefas)[i] == valoresDepois[i] { }
      }
    }

    /** Completes the first task titled `titulo` and saves; without one, changes nothing. */
    method MudarStatusTarefa(titulo: string) returns (alterada: bool)
      requires Valid()
      modifies this, tarefas
      ensures Valid() && tarefas == old(tarefas)
      ensures alterada <==> old(PrimeiraOcorrencia(tarefas, titulo)).Some?
      ensures !alterada ==> Valores(tarefas) == old(Valores(tarefas)) && arquivo == old(arquivo)
      ensures alterada ==>
        var k := old(PrimeiraOcorrencia(tarefas, titulo)).value;
        Valores(tarefas) == old(Valores(tarefas)[k := Completado(Valores(tarefas)[k])])
        && arquivo == Some(Registros(tarefas))
    {
      var encontrada := PrimeiraOcorrencia(tarefas, titulo);
      if encontrada.None? {
        return false;
      }
      Completar(encontrada.value);
      alterada := true;
    }

    /** Completes the task at position `k` and saves the list. */
    method Completar(k: nat)
      requires Valid() && k < |tarefas|
      modifies this, tarefas[k]
      ensures Valid() && tarefas == old(tarefas)
      ensures Valores(tarefas) == old(Valores(tarefas)[k := Completado(Valores(tarefas)[k])])
      ensures arquivo == Some(Registros(tarefas))
    {
      ghost var valoresAntes := Valores(tarefas);
      tarefas[k].MudarStatus();
      ghost var valoresDepois := Valores(tarefas);
      assert valoresDepois == valoresAntes[k := Completado(valoresAntes[k])] by {
        forall i | 0 <= i < |tarefas|
          ensures valoresDepois[i] == valoresAntes[k := Completado(valoresAntes[k])][i]
        {
          if i != k {
            assert tarefas[i] != tarefas[k];
          }
        }
      }
      SalvarTarefasEmJson();
      assert Valores(tarefas) == valoresDepois by {
        forall i | 0 <= i < |tarefas| ensures Valores(tarefas)[i] == valoresDepois[i] { }
      }
    }
  }

  /**
   * A session started without a file: adding two tasks with the same title
   * keeps both, in the order they were added.
   */
  method SessaoComTituloRepetido(titulo: string, primeira: string, segunda: string, data: string)
    returns (r: seq<Dados>)
    requires ValidarData(data)
    ensures r == [Dados(titulo, primeira, data, data, Pendente), Dados(titulo, segunda, data, data, Pendente)]
  {
    VencimentoReflexivo(data);
    var g := new GerenciadorDeTarefas(None);
    assert Valores(g.tarefas) == [];
    var a := g.AdicionarTarefa(titulo, primeira, data, data);
    assert a == Adicionada;
    ghost var uma := Valores(g.tarefas);
    assert uma == [Dados(titulo, primeira, data, data, Pendente)];
    var b := g.AdicionarTarefa(titulo, segunda, data, data);
    assert b == Adicionada;
    r := Valores(g.tarefas);
    assert r == uma + [Dados(titulo, segunda, data, data, Pendente)];
  }
}
