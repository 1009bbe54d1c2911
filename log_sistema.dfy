/** The system log screen (`LogSistema`): six filters over the audit log, ten-per-page
    pagination of the filtered list, the distinct users offered by the user filter, and the
    colour of each severity level. */
module LogSistema {
  import opened Text
  import opened Lists

  datatype Log = Log(
    id: int,
    data_hora: string,
    usuario: string,
    acao: string,
    modulo: string,
    descricao: string,
    ip: string,
    nivel: string)

  /** The filter form; the empty string means "no filter" for every field. */
  datatype Filtros = Filtros(
    usuario: string,
    acao: string,
    modulo: string,
    nivel: string,
    data_inicio: string,
    data_fim: string)

  /** The `name` attribute of the input that fired a change event. */
  datatype CampoFiltro = Usuario | Acao | Modulo | Nivel | DataInicio | DataFim

  const FiltrosVazios := Filtros("", "", "", "", "", "")

  const ItensPorPagina := 10

  const Acoes := ["Login", "Logout", "Criação", "Edição", "Exclusão", "Visualização", "Erro"]
  const Modulos := ["Sistema", "Clientes", "Evolução", "Despesas", "Agendamento", "Relatórios", "Backup"]
  const Niveis := ["info", "warning", "error"]

  // Filtering

  /** The filter's test for one log: every non-empty filter field must match. The user is a
      case-insensitive substring match; action, module and level are exact; the two date bounds
      compare the `data_hora` text with the filter text as strings, both ends inclusive. */
  predicate Atende(f: Filtros, log: Log) {
    (f.usuario == "" || ContainsIgnoringCase(log.usuario, f.usuario))
    && (f.acao == "" || log.acao == f.acao)
    && (f.modulo == "" || log.modulo == f.modulo)
    && (f.nivel == "" || log.nivel == f.nivel)
    && (f.data_inicio == "" || StrLe(f.data_inicio, log.data_hora))
    && (f.data_fim == "" || StrLe(log.data_hora, f.data_fim))
  }

  function AtendeFiltros(f: Filtros): Log -> bool {
    log => Atende(f, log)
  }

  /** `logs.filter(...)` with the current filters. */
  function LogsFiltrados(logs: seq<Log>, f: Filtros): (r: seq<Log>)
    ensures IsSubseq(r, logs)
    ensures |r| <= |logs|
  {
    Filter(logs, AtendeFiltros(f))
  }

  /** A log is listed exactly when it is stored and each filter field is either empty or
      matched: the user filter occurs somewhere in the lower-cased user name, the three
      selects are equal, and `data_hora` lies between the two bounds as text. */
  lemma LogMantido(logs: seq<Log>, f: Filtros, x: Log)
    ensures x in LogsFiltrados(logs, f) <==>
      x in logs
      && (f.usuario == "" || exists i :: OccursAt(Lower(x.usuario), Lower(f.usuario), i))
      && (f.acao == "" || x.acao == f.acao)
      && (f.modulo == "" || x.modulo == f.modulo)
      && (f.nivel == "" || x.nivel == f.nivel)
      && (f.data_inicio == "" || StrLe(f.data_inicio, x.data_hora))
      && (f.data_fim == "" || StrLe(x.data_hora, f.data_fim))
  {
    ContainsIff(Lower(x.usuario), Lower(f.usuario));
  }

  /** With every filter empty, as after clearing, the whole log is listed in its order. */
  lemma SemFiltrosMantemTudo(logs: seq<Log>)
    ensures LogsFiltrados(logs, FiltrosVazios) == logs
  {
    forall x | x in logs ensures Atende(FiltrosVazios, x) {
      ContainsEmpty(Lower(x.usuario));
    }
    FilterKeepsAll(logs, AtendeFiltros(FiltrosVazios));
  }

  /** Emptying one filter field never hides a log that was listed. */
  lemma LimparCampoNaoEsconde(logs: seq<Log>, f: Filtros, campo: CampoFiltro)
    ensures IsSubseq(LogsFiltrados(logs, f), LogsFiltrados(logs, ComCampo(f, campo, "")))
  {
    var g := ComCampo(f, campo, "");
    forall x | x in logs && AtendeFiltros(f)(x) ensures AtendeFiltros(g)(x) {
      ContainsEmpty(Lower(x.usuario));
    }
    FilterMonotone(logs, AtendeFiltros(f), AtendeFiltros(g));
  }

  /** `{...filtros, [name]: value}`. */
  function ComCampo(f: Filtros, campo: CampoFiltro, valor: string): (r: Filtros)
    ensures Campo(r, campo) == valor
    ensures forall c :: c != campo ==> Campo(r, c) == Campo(f, c)
  {
    match campo
    case Usuario => f.(usuario := valor)
    case Acao => f.(acao := valor)
    case Modulo => f.(modulo := valor)
    case Nivel => f.(nivel := valor)
    case DataInicio => f.(data_inicio := valor)
    case DataFim => f.(data_fim := valor)
  }

  /** The field of the form that an input name designates. */
  function Campo(f: Filtros, campo: CampoFiltro): string {
    match campo
    case Usuario => f.usuario
    case Acao => f.acao
    case Modulo => f.modulo
    case Nivel => f.nivel
    case DataInicio => f.data_inicio
    case DataFim => f.data_fim
  }

  /** Two filter forms that agree on every field are the same form: `ComCampo` changes the one
      named field and nothing else. */
  lemma CamposDeterminam(f: Filtros, g: Filtros)
    requires forall c :: Campo(f, c) == Campo(g, c)
    ensures f == g
  {
    assert Campo(f, Usuario) == Campo(g, Usuario) && Campo(f, Acao) == Campo(g, Acao);
    assert Campo(f, Modulo) == Campo(g, Modulo) && Campo(f, Nivel) == Campo(g, Nivel);
    assert Campo(f, DataInicio) == Campo(g, DataInicio) && Campo(f, DataFim) == Campo(g, DataFim);
  }

  // Pagination

  /** `Math.ceil(n / itemsPerPage)`: the fewest pages of ten that hold `n` items. */
  function TotalPaginas(n: nat): (t: nat)
    ensures t * ItensPorPagina >= n
    ensures t == 0 || (t - 1) * ItensPorPagina < n
  {
    (n + ItensPorPagina - 1) / ItensPorPagina
  }

  /** How `Array.prototype.slice` reads an index into a list of length `n`: a negative index
      counts from the end, and the result is clamped to `0..n`. */
  function IndiceSlice(i: int, n: nat): (k: nat)
    ensures k <= n
    ensures 0 <= i <= n ==> k == i
    ensures i > n ==> k == n
    ensures i < 0 ==> k == (if n + i < 0 then 0 else n + i)
  {
    if i < 0 then (if n + i < 0 then 0 else n + i) else if i > n then n else i
  }

  /** `s.slice(inicio, fim)`. */
  function Slice<T>(s: seq<T>, inicio: int, fim: int): (r: seq<T>)
    ensures 0 <= inicio <= fim ==>
      r == s[IndiceSlice(inicio, |s|)..IndiceSlice(fim, |s|)]
    ensures inicio >= |s| ==> r == []
  {
    var a, b := IndiceSlice(inicio, |s|), IndiceSlice(fim, |s|);
    if a < b then s[a..b] else []
  }

  /** `logsFiltrados.slice((page - 1) * itemsPerPage, page * itemsPerPage)`. */
  function Pagina<T>(s: seq<T>, page: int): (r: seq<T>)
    ensures |r| <= ItensPorPagina
    ensures page >= 1 ==>
      r == s[IndiceSlice((page - 1) * ItensPorPagina, |s|)..IndiceSlice(page * ItensPorPagina, |s|)]
    ensures page > TotalPaginas(|s|) ==> r == []
  {
    Slice(s, (page - 1) * ItensPorPagina, page * ItensPorPagina)
  }

  /** Pages `1..k` one after the other. */
  function Paginas<T>(s: seq<T>, k: nat): seq<T> {
    if k == 0 then [] else Paginas(s, k - 1) + Pagina(s, k)
  }

  /** The first `k` pages are exactly the first `10 * k` items (or all of them). */
  lemma {:induction false} PaginasPrefixo<T>(s: seq<T>, k: nat)
    ensures Paginas(s, k) == s[..IndiceSlice(k * ItensPorPagina, |s|)]
  {
    if k > 0 {
      PaginasPrefixo(s, k - 1);
      var a := IndiceSlice((k - 1) * ItensPorPagina, |s|);
      var b := IndiceSlice(k * ItensPorPagina, |s|);
      assert a <= b;
      assert s[..a] + s[a..b] == s[..b];
    }
  }

  /** Reading pages 1 to `totalPages` in turn shows every filtered log once, in order. */
  lemma PaginasReconstroem<T>(s: seq<T>)
    ensures Paginas(s, TotalPaginas(|s|)) == s
  {
    PaginasPrefixo(s, TotalPaginas(|s|));
  }

  // Options of the user filter

  /** `[...new Set(s)]`: the distinct values in the order they are first met. */
  function Distintos(s: seq<string>): (r: seq<string>)
    ensures forall x :: x in r <==> x in s
    ensures forall i, j :: 0 <= i < j < |r| ==> r[i] != r[j]
  {
    if s == [] then []
    else
      var r := Distintos(s[..|s| - 1]);
      assert forall x :: x in s <==> x in s[..|s| - 1] || x == s[|s| - 1];
      if s[|s| - 1] in r then r else r + [s[|s| - 1]]
  }

  /** Position of the first occurrence of `x` in `s`. */
  function Primeira(s: seq<string>, x: string): (k: nat)
    requires x in s
    ensures k < |s| && s[k] == x && x !in s[..k]
  {
    if s[0] == x then 0
    else
      var k := 1 + Primeira(s[1..], x);
      assert s[..k] == [s[0]] + s[1..][..k - 1];
      k
  }

  lemma PrimeiraPrefixo(s: seq<string>, z: string, x: string)
    requires x in s
    ensures Primeira(s + [z], x) == Primeira(s, x)
  {
    var k, k' := Primeira(s, x), Primeira(s + [z], x);
    assert (s + [z])[k] == x;
    assert (s + [z])[..k'] == s[..k'] by { assert k' <= k; }
  }

  /** The options appear in the order in which their users first appear in the log. */
  lemma {:induction false} DistintosOrdem(s: seq<string>)
    ensures forall i, j :: 0 <= i < j < |Distintos(s)| ==>
      Primeira(s, Distintos(s)[i]) < Primeira(s, Distintos(s)[j])
  {
    if s != [] {
      var init, z := s[..|s| - 1], s[|s| - 1];
      assert s == init + [z];
      DistintosOrdem(init);
      var r0, r := Distintos(init), Distintos(s);
      forall y | y in r0 ensures Primeira(s, y) == Primeira(init, y) && Primeira(init, y) < |init| {
        PrimeiraPrefixo(init, z, y);
      }
      forall i, j | 0 <= i < j < |r| ensures Primeira(s, r[i]) < Primeira(s, r[j]) {
        assert r[i] in r0;
        if j < |r0| {
          assert r[j] == r0[j] && r[i] == r0[i];
        } else {
          assert r[j] == z && z !in init;
          assert Primeira(s, z) == |init| by { assert s[..|init|] == init; }
        }
      }
    }
  }

  /** The user options of a log list. */
  function Usuarios(logs: seq<Log>): (r: seq<string>)
    ensures forall x :: x in r <==> exists l :: l in logs && l.usuario == x
    ensures forall i, j :: 0 <= i < j < |r| ==> r[i] != r[j]
  {
    var nomes := seq(|logs|, i requires 0 <= i < |logs| => logs[i].usuario);
    assert forall x :: x in nomes <==> exists l :: l in logs && l.usuario == x by {
      forall x | x in nomes ensures exists l :: l in logs && l.usuario == x {
        var i :| 0 <= i < |nomes| && nomes[i] == x;
        assert logs[i] in logs;
      }
      forall l | l in logs ensures l.usuario in nomes {
        var i :| 0 <= i < |logs| && logs[i] == l;
        assert nomes[i] == l.usuario;
      }
    }
    Distintos(nomes)
  }

  // Levels

  /** `getNivelColor`: the chip colour of a severity level. */
  function CorNivel(nivel: string): (cor: string)
    ensures nivel == "info" <==> cor == "primary"
    ensures nivel == "warning" <==> cor == "warning"
    ensures nivel == "error" <==> cor == "error"
    ensures nivel !in Niveis <==> cor == "default"
  {
    if nivel == "info" then "primary"
    else if nivel == "warning" then "warning"
    else if nivel == "error" then "error"
    else "default"
  }

  // The screen's state

  class TelaLog {
    var logs: seq<Log>
    var filtros: Filtros
    var page: int

    /** The screen as first shown: no filters, first page. */
    constructor (logsIniciais: seq<Log>)
      ensures logs == logsIniciais && filtros == FiltrosVazios && page == 1
    {
      logs := logsIniciais;
      filtros := FiltrosVazios;
      page := 1;
    }

    /** The logs shown on the current page. */
    function Exibidos(): seq<Log>
      reads this
    {
      Pagina(LogsFiltrados(logs, filtros), page)
    }

    /** `handleFiltroChange`: store the typed value in the named filter and go back to the first
        page. */
    method HandleFiltroChange(campo: CampoFiltro, valor: string)
      modifies this
      ensures filtros == ComCampo(old(filtros), campo, valor)
      ensures page == 1 && logs == old(logs)
    {
      filtros := ComCampo(filtros, campo, valor);
      page := 1;
    }

    /** `limparFiltros`: every filter emptied, first page; the first ten logs are then shown. */
    method LimparFiltros()
      modifies this
      ensures filtros == FiltrosVazios && page == 1 && logs == old(logs)
      ensures Exibidos() == logs[..IndiceSlice(ItensPorPagina, |logs|)]
    {
      filtros := FiltrosVazios;
      page := 1;
      SemFiltrosMantemTudo(logs);
    }

    /** The pagination control's `onChange`: show page `novaPagina`. */
    method SetPage(novaPagina: int)
      modifies this
      ensures page == novaPagina && logs == old(logs) && filtros == old(filtros)
    {
      page := novaPagina;
    }
  }
}
