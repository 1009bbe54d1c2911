/** The experiences screen (`Experiencias`): positive and negative notes attached to a client,
    filtered by client, period and free text, created at the top of the list, edited and
    deleted. Timestamps are modelled as abstract instants in seconds, ordered as `Date`
    values compare. */
module Experiencias {
  import opened Text
  import opened Lists

  datatype Experiencia = Experiencia(
    id: int,
    cliente_id: int,
    cliente_nome: string,
    criado_em: int,
    positiva: string,
    negativa: string)

  datatype ClienteResumo = ClienteResumo(id: int, nome: string)

  /** The filter form. `cliente_id` is the client select ('' is `None`); the dates are the
      instants at which the chosen days begin, `None` when a date input is empty. */
  datatype Filtros = Filtros(
    cliente_id: Option<int>,
    data_inicio: Option<int>,
    data_fim: Option<int>,
    busca: string)

  /** The dialog's form. */
  datatype Formulario = Formulario(cliente_id: Option<int>, positiva: string, negativa: string)

  /** A change event of a filter input: the input's name with its new value. */
  datatype EventoFiltro =
    | FiltroCliente(cliente: Option<int>)
    | FiltroInicio(inicio: Option<int>)
    | FiltroFim(fim: Option<int>)
    | FiltroBusca(texto: string)

  /** A change event of a form input. */
  datatype EventoForm =
    | FormCliente(cliente: Option<int>)
    | FormPositiva(texto: string)
    | FormNegativa(texto: string)

  const FiltrosVazios := Filtros(None, None, None, "")
  const FormVazio := Formulario(None, "", "")

  /** `dataFim.setHours(23, 59, 59)`: 23 hours, 59 minutes and 59 seconds after the day begins. */
  const FimDoDia := 23 * 3600 + 59 * 60 + 59

  function ExpId(e: Experiencia): int { e.id }
  function ClienteResumoId(c: ClienteResumo): int { c.id }

  // Filtering

  /** The filter's test for one experience. */
  predicate Mantida(f: Filtros, e: Experiencia) {
    (!Truthy(f.cliente_id) || e.cliente_id == f.cliente_id.value)
    && (f.data_inicio.None? || !(e.criado_em < f.data_inicio.value))
    && (f.data_fim.None? || !(e.criado_em > f.data_fim.value + FimDoDia))
    && (f.busca == ""
        || ContainsIgnoringCase(e.cliente_nome, f.busca)
        || ContainsIgnoringCase(e.positiva, f.busca)
        || ContainsIgnoringCase(e.negativa, f.busca))
  }

  function MantidaPor(f: Filtros): Experiencia -> bool {
    e => Mantida(f, e)
  }

  /** `experienciasFiltradas`. */
  function Filtradas(exps: seq<Experiencia>, f: Filtros): (r: seq<Experiencia>)
    ensures IsSubseq(r, exps)
  {
    Filter(exps, MantidaPor(f))
  }

  /** An experience is listed exactly when it is stored, belongs to the chosen client (if
      any), was created no earlier than the start day begins and no later than 23:59:59 of the
      end day, and, when a search text is set, that text occurs (ignoring case) in the client
      name, the positive note or the negative note. */
  lemma ExperienciaMantida(exps: seq<Experiencia>, f: Filtros, e: Experiencia)
    ensures e in Filtradas(exps, f) <==>
      e in exps
      && (!Truthy(f.cliente_id) || e.cliente_id == f.cliente_id.value)
      && (f.data_inicio.None? || f.data_inicio.value <= e.criado_em)
      && (f.data_fim.None? || e.criado_em <= f.data_fim.value + FimDoDia)
      && (f.busca == ""
          || (exists i :: OccursAt(Lower(e.cliente_nome), Lower(f.busca), i))
          || (exists i :: OccursAt(Lower(e.positiva), Lower(f.busca), i))
          || (exists i :: OccursAt(Lower(e.negativa), Lower(f.busca), i)))
  {
    ContainsIff(Lower(e.cliente_nome), Lower(f.busca));
    ContainsIff(Lower(e.positiva), Lower(f.busca));
    ContainsIff(Lower(e.negativa), Lower(f.busca));
  }

  /** Cleared filters list every experience, in order. */
  lemma SemFiltrosMantemTudo(exps: seq<Experiencia>)
    ensures Filtradas(exps, FiltrosVazios) == exps
  {
    FilterKeepsAll(exps, MantidaPor(FiltrosVazios));
  }

  /** `{...prev, [name]: value}` for a filter input. */
  function ComFiltro(f: Filtros, ev: EventoFiltro): (r: Filtros)
    ensures ev.FiltroCliente? ==> r == Filtros(ev.cliente, f.data_inicio, f.data_fim, f.busca)
    ensures ev.FiltroInicio? ==> r == Filtros(f.cliente_id, ev.inicio, f.data_fim, f.busca)
    ensures ev.FiltroFim? ==> r == Filtros(f.cliente_id, f.data_inicio, ev.fim, f.busca)
    ensures ev.FiltroBusca? ==> r == Filtros(f.cliente_id, f.data_inicio, f.data_fim, ev.texto)
  {
    match ev
    case FiltroCliente(v) => f.(cliente_id := v)
    case FiltroInicio(v) => f.(data_inicio := v)
    case FiltroFim(v) => f.(data_fim := v)
    case FiltroBusca(v) => f.(busca := v)
  }

  /** `{...prev, [name]: value}` for a form input. */
  function ComCampoForm(form: Formulario, ev: EventoForm): (r: Formulario)
    ensures ev.FormCliente? ==> r == Formulario(ev.cliente, form.positiva, form.negativa)
    ensures ev.FormPositiva? ==> r == Formulario(form.cliente_id, ev.texto, form.negativa)
    ensures ev.FormNegativa? ==> r == Formulario(form.cliente_id, form.positiva, ev.texto)
  {
    match ev
    case FormCliente(v) => form.(cliente_id := v)
    case FormPositiva(v) => form.(positiva := v)
    case FormNegativa(v) => form.(negativa := v)
  }

  // Saving and deleting

  /** `clientes.find(c => c.id === parseInt(formData.cliente_id))`; an empty select parses to
      NaN and matches no client. */
  function ClienteSelecionado(clientes: seq<ClienteResumo>, escolhido: Option<int>): (r: Option<ClienteResumo>)
    ensures r.Some? ==> r.value in clientes && escolhido == Some(r.value.id)
    ensures r.None? <==> escolhido.None? || forall c :: c in clientes ==> c.id != escolhido.value
  {
    if escolhido.None? then None
    else
      var r := Find(clientes, (c: ClienteResumo) => c.id == escolhido.value);
      assert r.Some? ==> r.value in clientes && r.value.id == escolhido.value;
      r
  }

  /** The form's choices laid over one experience: the client, its name and the two notes. */
  function ComFormulario(c: ClienteResumo, form: Formulario): Experiencia -> Experiencia {
    (e: Experiencia) => e.(cliente_id := c.id, cliente_nome := c.nome, positiva := form.positiva, negativa := form.negativa)
  }

  /** The edit branch of `salvarExperiencia`. Only the four form-driven fields of the edited
      experience change; its id and creation time, and every other experience, stay. */
  function Editadas(exps: seq<Experiencia>, alvo: int, c: ClienteResumo, form: Formulario): (r: seq<Experiencia>)
    ensures |r| == |exps|
    ensures forall i :: 0 <= i < |r| ==> r[i].id == exps[i].id && r[i].criado_em == exps[i].criado_em
    ensures forall i :: 0 <= i < |r| && exps[i].id != alvo ==> r[i] == exps[i]
    ensures forall i :: 0 <= i < |r| && exps[i].id == alvo ==>
      r[i].cliente_id == c.id && r[i].cliente_nome == c.nome
      && r[i].positiva == form.positiva && r[i].negativa == form.negativa
  {
    MapWhere(exps, ExpId, alvo, ComFormulario(c, form))
  }

  /** The new experience of the create branch: id `Math.max(...ids) + 1`, created now. */
  function Nova(exps: seq<Experiencia>, c: ClienteResumo, form: Formulario, agora: int): (e: Experiencia)
    requires exps != []
    ensures forall x :: x in exps ==> x.id < e.id
    ensures exists x :: x in exps && x.id == e.id - 1
    ensures e.cliente_id == c.id && e.cliente_nome == c.nome && e.criado_em == agora
    ensures e.positiva == form.positiva && e.negativa == form.negativa
  {
    Experiencia(MaxIdPlusOne(exps, ExpId), c.id, c.nome, agora, form.positiva, form.negativa)
  }

  /** The outcome of `salvarExperiencia`: the new list with its success message, or the
      message of the exception thrown when the chosen client is not found. */
  datatype Resultado = Salvo(lista: seq<Experiencia>, mensagem: string) | Falhou(erro: string)

  const PrefixoErro := "Erro ao salvar experiência: "

  /** Whether a stored experience carries the id `alvo`: only then does the edit branch's
      `map` reach the spread that reads the selected client's name. */
  predicate Guardada(exps: seq<Experiencia>, alvo: int) {
    exists i :: 0 <= i < |exps| && exps[i].id == alvo
  }

  /** `salvarExperiencia` on values. `excecao` is the message the runtime gives to the
      `TypeError` raised by reading `nome` of an undefined client. That read happens in the
      create branch, and in the edit branch only for a stored experience with the edited id;
      when none is stored, the `map` copies the list and the edit succeeds without a client.
      Creating into an empty list is outside the model: `Math.max()` of no ids is `-Infinity`. */
  function Salvar(exps: seq<Experiencia>, clientes: seq<ClienteResumo>, form: Formulario,
                  editando: Option<Experiencia>, agora: int, excecao: string): (r: Resultado)
    requires editando.Some? || exps != [] || ClienteSelecionado(clientes, form.cliente_id).None?
    ensures r.Falhou? <==>
      (ClienteSelecionado(clientes, form.cliente_id).None? && (editando.None? || Guardada(exps, editando.value.id)))
    ensures r.Falhou? ==> r.erro == PrefixoErro + excecao
    ensures r.Salvo? && editando.Some? ==> r.mensagem == "Experiência atualizada com sucesso!"
    ensures r.Salvo? && editando.Some? && ClienteSelecionado(clientes, form.cliente_id).Some? ==>
      r.lista == Editadas(exps, editando.value.id, ClienteSelecionado(clientes, form.cliente_id).value, form)
    ensures r.Salvo? && editando.Some? && ClienteSelecionado(clientes, form.cliente_id).None? ==>
      r.lista == exps && !Guardada(exps, editando.value.id)
    ensures r.Salvo? && editando.None? ==>
      exps != [] && r.lista == [Nova(exps, ClienteSelecionado(clientes, form.cliente_id).value, form, agora)] + exps
      && r.mensagem == "Experiência criada com sucesso!"
  {
    match ClienteSelecionado(clientes, form.cliente_id)
    case None =>
      if editando.Some? && !Guardada(exps, editando.value.id) then Salvo(exps, "Experiência atualizada com sucesso!")
      else Falhou(PrefixoErro + excecao)
    case Some(c) =>
      if editando.Some? then Salvo(Editadas(exps, editando.value.id, c, form), "Experiência atualizada com sucesso!")
      else Salvo([Nova(exps, c, form, agora)] + exps, "Experiência criada com sucesso!")
  }

  /** With no stored experience of the edited id the edit branch's `map` leaves the list as
      it is, whichever client is chosen: the client-less success of `Salvar` is the list the
      found-client edit would give. */
  lemma EdicaoSemAlvo(exps: seq<Experiencia>, alvo: int, c: ClienteResumo, form: Formulario)
    requires !Guardada(exps, alvo)
    ensures Editadas(exps, alvo, c, form) == exps
  {
  }

  /** Saving keeps the experience ids unique, and a successful create adds exactly one
      experience, in front. */
  lemma SalvarMantemIds(exps: seq<Experiencia>, clientes: seq<ClienteResumo>, form: Formulario,
                        editando: Option<Experiencia>, agora: int, excecao: string)
    requires editando.Some? || exps != [] || ClienteSelecionado(clientes, form.cliente_id).None?
    requires UniqueIds(exps, ExpId)
    ensures Salvar(exps, clientes, form, editando, agora, excecao).Salvo? ==>
      UniqueIds(Salvar(exps, clientes, form, editando, agora, excecao).lista, ExpId)
    ensures Salvar(exps, clientes, form, editando, agora, excecao).Salvo? && editando.None? ==>
      |Salvar(exps, clientes, form, editando, agora, excecao).lista| == |exps| + 1
  {
    var c := ClienteSelecionado(clientes, form.cliente_id);
    if c.Some? {
      if editando.Some? {
        SameIdsUnique(exps, Editadas(exps, editando.value.id, c.value, form), ExpId);
      } else {
        FreshPrependUniqueIds(exps, Nova(exps, c.value, form, agora), ExpId);
      }
    }
  }

  /** `experiencias.filter(exp => exp.id !== id)`. */
  function Excluidas(exps: seq<Experiencia>, id: int): (r: seq<Experiencia>)
    ensures forall e :: e in r <==> e in exps && e.id != id
    ensures IsSubseq(r, exps)
  {
    WithoutId(exps, ExpId, id)
  }

  /** `truncarTexto`: texts longer than `limite` are cut to `limite` characters and marked
      with '...'. */
  function TruncarTexto(texto: string, limite: nat): (r: string)
    ensures |texto| <= limite ==> r == texto
    ensures |texto| > limite ==> |r| == limite + 3 && r[..limite] == texto[..limite] && r[limite..] == "..."
  {
    if |texto| > limite then Prefix(texto, limite) + "..." else texto
  }

  // The screen's state

  class TelaExperiencias {
    var experiencias: seq<Experiencia>
    var clientes: seq<ClienteResumo>
    var filtros: Filtros
    var formData: Formulario
    var editando: Option<Experiencia>
    var openDialog: bool
    var loading: bool
    var success: string
    var error: string

    constructor (experienciasIniciais: seq<Experiencia>, clientesIniciais: seq<ClienteResumo>)
      ensures experiencias == experienciasIniciais && clientes == clientesIniciais
      ensures filtros == FiltrosVazios && formData == FormVazio && editando == None
      ensures !openDialog && !loading && success == "" && error == ""
    {
      experiencias := experienciasIniciais;
      clientes := clientesIniciais;
      filtros := FiltrosVazios;
      formData := FormVazio;
      editando := None;
      openDialog := false;
      loading := false;
      success := "";
      error := "";
    }

    /** `handleFiltroChange`. */
    method HandleFiltroChange(ev: EventoFiltro)
      modifies this
      ensures filtros == ComFiltro(old(filtros), ev)
      ensures experiencias == old(experiencias) && formData == old(formData) && editando == old(editando)
      ensures clientes == old(clientes) && openDialog == old(openDialog)
      ensures loading == old(loading) && success == old(success) && error == old(error)
    {
      filtros := ComFiltro(filtros, ev);
    }

    /** `handleFormChange`. */
    method HandleFormChange(ev: EventoForm)
      modifies this
      ensures formData == ComCampoForm(old(formData), ev)
      ensures experiencias == old(experiencias) && filtros == old(filtros) && editando == old(editando)
      ensures clientes == old(clientes) && openDialog == old(openDialog)
      ensures loading == old(loading) && success == old(success) && error == old(error)
    {
      formData := ComCampoForm(formData, ev);
    }

    /** `limparFiltros`: afterwards every experience is listed. */
    method LimparFiltros()
      modifies this
      ensures filtros == FiltrosVazios && experiencias == old(experiencias)
      ensures Filtradas(experiencias, filtros) == experiencias
      ensures formData == old(formData) && editando == old(editando) && openDialog == old(openDialog)
      ensures clientes == old(clientes) && loading == old(loading) && success == old(success) && error == old(error)
    {
      filtros := FiltrosVazios;
      SemFiltrosMantemTudo(experiencias);
    }

    /** `abrirDialog`: a given experience is loaded into the form for editing, none starts a
        new one. */
    method AbrirDialog(experiencia: Option<Experiencia>)
      modifies this
      ensures openDialog && editando == experiencia
      ensures experiencia.Some? ==> formData == Formulario(
        Some(experiencia.value.cliente_id), experiencia.value.positiva, experiencia.value.negativa)
      ensures experiencia.None? ==> formData == FormVazio
      ensures experiencias == old(experiencias) && clientes == old(clientes) && filtros == old(filtros)
      ensures loading == old(loading) && success == old(success) && error == old(error)
    {
      editando := experiencia;
      if experiencia.Some? {
        formData := Formulario(Some(experiencia.value.cliente_id), experiencia.value.positiva, experiencia.value.negativa);
      } else {
        formData := FormVazio;
      }
      openDialog := true;
    }

    /** `fecharDialog`. */
    method FecharDialog()
      modifies this
      ensures !openDialog && editando == None && formData == FormVazio
      ensures experiencias == old(experiencias) && clientes == old(clientes) && filtros == old(filtros)
      ensures success == old(success) && error == old(error) && loading == old(loading)
    {
      openDialog := false;
      editando := None;
      formData := FormVazio;
    }

    /** `salvarExperiencia`: on success the list and success message are replaced and the
        dialog closes; when the chosen client is missing only the error message is set. */
    method SalvarExperiencia(agora: int, excecao: string)
      requires editando.Some? || experiencias != [] || ClienteSelecionado(clientes, formData.cliente_id).None?
      modifies this
      ensures var r := Salvar(old(experiencias), old(clientes), old(formData), old(editando), agora, excecao);
        (r.Salvo? ==>
          experiencias == r.lista && success == r.mensagem && error == ""
          && !openDialog && editando == None && formData == FormVazio)
        && (r.Falhou? ==>
          experiencias == old(experiencias) && error == r.erro && success == old(success)
          && openDialog == old(openDialog) && editando == old(editando) && formData == old(formData))
      ensures clientes == old(clientes) && filtros == old(filtros) && !loading
    {
      var r := Salvar(experiencias, clientes, formData, editando, agora, excecao);
      loading := true;
      error := "";
      if r.Salvo? {
        experiencias := r.lista;
        success := r.mensagem;
        FecharDialog();
      } else {
        error := r.erro;
      }
      loading := false;
    }

    /** `excluirExperiencia`, with the answer of `window.confirm` as a parameter. */
    method ExcluirExperiencia(id: int, confirmado: bool)
      modifies this
      ensures confirmado ==>
        experiencias == Excluidas(old(experiencias), id) && success == "Experiência excluída com sucesso!"
      ensures !confirmado ==> experiencias == old(experiencias) && success == old(success)
      ensures clientes == old(clientes) && filtros == old(filtros)
      ensures formData == old(formData) && editando == old(editando) && openDialog == old(openDialog)
      ensures error == old(error) && loading == old(loading)
    {
      if confirmado {
        experiencias := Excluidas(experiencias, id);
        success := "Experiência excluída com sucesso!";
      }
    }
  }
}
