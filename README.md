# Task manager model (tarefa.py)

A Dafny model of the task manager in `tarefa.py`. It covers:

- the `Tarefa` record, its one-way status change, and its conversion to and from the flat record stored in the file;
- the two date checks in `JsonUtils`;
- the save and load conversions between the task list and the stored records;
- the adding, removing and status-changing operations of `GerenciadorDeTarefas`.

Modules:

- `Opcional`: the `Option` type.
- `Calendario`: what `datetime.strptime(s, "%Y-%m-%d")` accepts and what it produces.
  - The model follows CPython's `_strptime` grammar for the three directives. `%Y` is exactly four ASCII digits. `%m` is `1[0-2]`, `0[1-9]` or `[1-9]`. `%d` is `3[01]`, `[12][0-9]`, `0[1-9]`, `[1-9]` or a space followed by `[1-9]`.
  - The whole string must be consumed.
  - After parsing, `datetime.date` rejects year 0 and any day past the end of the month (Gregorian leap rule).
  - The parser is proved equal to an independent description: `Grafias(d)`, the set of spellings of a date.
  - The `datetime` comparison (lexicographic on year, month, day) is proved equal to comparing day numbers (`Ordinal`).
- `Tarefas`:
  - `Tarefa` is a class with the five fields, updated in place by `MudarStatus`.
  - `Dados` is the value of those fields at one moment.
  - `Registro` (`map<string, string>`) is the stored record.
- `JsonUtils`: `ValidarData`, `ValidarDataVencimento`, and the save/load list comprehensions.
  - The file's content is a value, `Option<seq<Registro>>`. `None` stands for a missing or unreadable file, which loads as an empty list.
- `Gerenciador`:
  - The class `GerenciadorDeTarefas` holds the list of task objects (`tarefas`) and the last content written to the file (`arquivo`).
  - What the source reads with `input()` is passed as parameters.
  - What it prints is returned as a result: a `ResultadoAdicao`, or a boolean for "found / not found".
  - `Valid()` states that no task object occurs twice in the list. The source only ever adds freshly built objects.
  - A consequence of `Valid()`: `list.remove(obj)` removes the object's only position, and completing one object changes one entry of the list.

Two points where the program accepts more than its prompts suggest:

- **Date format.** The prompts (tarefa.py:87-88) and the error message (tarefa.py:91) ask for `YYYY-MM-DD`. `strptime` also accepts one-digit months and days (`2024-1-5`) and a day padded with a space (`2024-01- 5`). `Calendario.AnalisarData` accepts exactly what the code accepts, apart from non-ASCII digits (see Left out). `Calendario.ExemplosDeGrafiasCurtas` shows these cases.
- **Title.** Titles are never checked, so empty and repeated titles are accepted.

## Model

| member | source | states |
|---|---|---|
| Tarefas.Tarefa.constructor | tarefa.py:5-10 | the new task holds the given fields; the status defaults to `Pendente` |
| Tarefas.Tarefa.MudarStatus | tarefa.py:12-13 | the status becomes `Completa` and the other four fields keep their values |
| Tarefas.Completado | tarefa.py:12-13 | completing sets the status to `Completa` and keeps title, description and both dates |
| Tarefas.CompletadoIdempotente | tarefa.py:12-13 | completing twice equals completing once |
| Tarefas.MudarStatusDuasVezes | tarefa.py:12-13 | calling `MudarStatus` twice on a task leaves it as one call does |
| Tarefas.Montar | tarefa.py:22-29 | the written record has exactly the five keys, each holding the value of its field |
| Tarefas.Tarefa.Dicionario | tarefa.py:22-29 | the task's record has exactly the five keys, and reading it gives back the task's fields |
| Tarefas.StatusDe | tarefa.py:38 | the stored status when the record has one, `Pendente` otherwise |
| Tarefas.Tarefa.DeDicionario | tarefa.py:31-39 | the task built from a record holds the record's four fields and its status, or `Pendente` when there is none |
| Tarefas.LerMontar | tarefa.py:22-39 | reading a written record gives back every field |
| Tarefas.MontarInjetiva | tarefa.py:22-29 | two tasks write the same record only if all their fields agree |
| Tarefas.Ler | tarefa.py:34-38 | a record with exactly the five keys is reproduced by writing back the fields read from it |
| Tarefas.StatusAusenteEhPendente | tarefa.py:38 | a record without a status loads as a pending task |
| Calendario.DiasNoMes | tarefa.py:45 | every month has 28 to 31 days; February has 29 exactly in leap years |
| Calendario.AnalisarAno | tarefa.py:45 | a year spelling parses to a number from 0 to 9999 |
| Calendario.AnalisarMes | tarefa.py:45 | a month spelling parses to a number from 1 to 12 |
| Calendario.AnalisarDia | tarefa.py:45 | a day spelling parses to a number from 1 to 31 |
| Calendario.Separar | tarefa.py:45 | a split gives back the string when rejoined with '-', with a four-character year and a one- or two-character month |
| Calendario.AnalisarData | tarefa.py:45 | whatever parses is a real calendar date |
| Calendario.Iso | tarefa.py:45 | the zero-padded ten-character spelling is one of the date's spellings |
| Calendario.GrafiaAnalisada | tarefa.py:45 | every spelling of a real date parses to that date |
| Calendario.AnalisadaEhGrafia | tarefa.py:45 | every string that parses is a spelling of the date it parses to |
| Calendario.AnalisavelSeGrafia | tarefa.py:45 | a string parses if and only if it spells some real date |
| Calendario.AnalisarDataCorreta | tarefa.py:45 | parsing gives `d` if and only if `d` is real and the string is one of its spellings |
| Calendario.AntesOuIgual | tarefa.py:55 | `b >= a` as `datetime` compares, lexicographic on (year, month, day); for real dates it holds if and only if the day numbers are in order |
| Calendario.AntesOuIgualReflexiva | tarefa.py:55 | every date is on or after itself |
| Calendario.AntesOuIgualTransitiva | tarefa.py:55 | the date order is transitive |
| Calendario.AntesOuIgualAntissimetrica | tarefa.py:55 | two dates each on or before the other are equal |
| Calendario.AntesOuIgualTotal | tarefa.py:55 | any two dates are comparable |
| Calendario.ExemplosBissextos | tarefa.py:45 | `2024-02-29` and `2000-02-29` parse to those dates |
| Calendario.ExemplosNaoBissextos | tarefa.py:45 | `2023-02-29` and `1900-02-29` are rejected |
| Calendario.ExemplosForaDoCalendario | tarefa.py:45 | `2024-01-15` parses; `2024-02-30`, `2024-13-01` and `0000-01-01` are rejected |
| Calendario.ExemplosDeFormato | tarefa.py:45 | `not-a-date`, `24-01-15`, `2024-01-15 ` (trailing space) and `2024/01/15` are rejected |
| Calendario.ExemplosDeGrafiasCurtas | tarefa.py:45 | `2024-1-5` and `2024-01- 5` parse to 5 January 2024; `2024-001-05` and `2024- 1-05` are rejected |
| Calendario.ExemplosDeVirada | tarefa.py:45 | `2023-12-31`, `2024-01-01` and `2024-01-05` parse to those dates |
| JsonUtils.ValidarData | tarefa.py:43-48 | a string is valid if and only if it spells some real date |
| JsonUtils.ValidarDataVencimento | tarefa.py:51-57 | fails closed: it holds only when both dates are valid |
| JsonUtils.VencimentoPorDias | tarefa.py:51-57 | on spellings of real dates, the check holds if and only if the due date's day number is not smaller than the creation date's |
| JsonUtils.VencimentoReflexivo | tarefa.py:51-57 | a task may fall due on its creation day: the check of a date against itself holds if and only if the date is valid |
| JsonUtils.VencimentoTransitivo | tarefa.py:51-57 | the due-date check is transitive |
| JsonUtils.ExemplosDeVencimento | tarefa.py:51-57 | same day passes, an earlier due date fails, and differently padded spellings of one day compare equal |
| JsonUtils.Registros | tarefa.py:63 | one record per task, in list order, each the task's `dicionario` |
| JsonUtils.LerTodos | tarefa.py:73 | one task per record, in record order, each read by `de_dicionario` |
| JsonUtils.Carregado | tarefa.py:69-78 | a missing or unreadable file loads as no tasks; otherwise one task per record, in order |
| JsonUtils.SalvarCarregar | tarefa.py:63-73 | loading what was saved gives the same tasks, field by field, in the same order and number |
| JsonUtils.CarregarTarefas | tarefa.py:69-78 | builds distinct fresh tasks whose fields are those the records read as; a missing or unreadable file gives none |
| Gerenciador.PrimeiraOcorrencia | tarefa.py:113 | none if and only if no task has the title; otherwise the position of the first task that has it |
| Gerenciador.GerenciadorDeTarefas.constructor | tarefa.py:81-82 | the session starts with the tasks loaded from the file, as distinct fresh objects |
| Gerenciador.GerenciadorDeTarefas.SalvarTarefasEmJson | tarefa.py:133-134 | the file now holds the records of every task, in order |
| Gerenciador.GerenciadorDeTarefas.AdicionarTarefa | tarefa.py:84-101 | see the note after this table |
| Gerenciador.GerenciadorDeTarefas.Anexar | tarefa.py:98-101 | appending a fresh task adds its fields at the end, keeps the objects distinct, and saves |
| Gerenciador.SessaoComTituloRepetido | tarefa.py:84-101 | starting without a file, two tasks added under the same title are both kept, in order |
| Gerenciador.GerenciadorDeTarefas.RemoverTarefa | tarefa.py:111-120 | see the note after this table |
| Gerenciador.GerenciadorDeTarefas.Retirar | tarefa.py:116-117 | dropping the task at one position keeps the others in order, and saves |
| Gerenciador.GerenciadorDeTarefas.MudarStatusTarefa | tarefa.py:122-131 | see the note after this table |
| Gerenciador.GerenciadorDeTarefas.Completar | tarefa.py:127-128 | completing the task at one position changes only that entry, and saves |

What the three manager operations state:

- **`AdicionarTarefa`**
  - It reports an invalid date if and only if either date is invalid.
  - It reports an early due date if and only if both dates are valid but the due date is before the creation date.
  - In both of those cases, the list and the file are unchanged.
  - Otherwise, it appends one fresh task with the given fields and status `Pendente`, keeps every earlier task, and saves.
  - Whether the title is already in use plays no part.
- **`RemoverTarefa`**
  - It removes a task if and only if some task has the title. It removes the first such task, keeping the others in order, and saves.
  - With no match, the list and the file are unchanged.
- **`MudarStatusTarefa`**
  - It reports success if and only if some task has the title. Only the first such task is completed, and the file is saved.
  - With no match, no task and not the file changes.
  - The list of objects itself never changes.

## Left out

- The file and JSON text are not modelled. The file's content is the sequence of records it holds, and the fixed file name `tarefas.json` is left out.
- The printed messages and the `input()` prompts are not modelled. Their values are parameters and results.
- The interactive `menu` loop and `listar_tarefas` only read input and print.
- `exibir_tarefa` only formats the five fields into a display string for `listar_tarefas`.
- Gerenciador.GerenciadorDeTarefas.SalvarTarefasEmJson: always succeeds. The source catches an `IOError` and prints it. If `open` itself fails, the old file stays; if writing fails after `open(..., 'w')` has emptied the file, an empty or partial file is left. Neither failure is modelled.
- JsonUtils.CarregarTarefas: requires every record to have the four keys `de_dicionario` reads. The source raises `KeyError` there, an uncaught crash.
- Tarefas.Tarefa.DeDicionario: requires the four keys, for the same reason.
- Gerenciador.GerenciadorDeTarefas.constructor: requires readable records, for the same reason.
- A file that is not valid JSON raises an error that `carregar_tarefas` does not catch. So does a top-level value whose items are not objects with the four keys. An empty top-level object or string loads as no tasks. None of these file contents is modelled.
- JSON values other than strings are not modelled: records are maps from strings to strings.
- Python's `\d` also matches non-ASCII decimal digits in `strptime`. The model accepts ASCII digits only.
