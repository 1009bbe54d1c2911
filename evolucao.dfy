/** The session-notes screen (`Evolucao`): one record per session with client, date,
    procedure, synthesis, conduct and an optional note. Three of the text fields can be
    dictated: each speech-recognition result event appends its final segments to the field
    being recorded. */
module Evolucao {
  import opened Lists

  datatype Evolucao = Evolucao(
    id: int, cliente_id: Option<int>, data: string, procedimento: string,
    sintese: string, conduta: string, obs: string)

  function EvolucaoId(e: Evolucao): int { e.id }

  /** The dialog's fields; `cliente_id` is `None` for the empty selection. */
  datatype Formulario = Formulario(
    cliente_id: Option<int>, data: string, procedimento: string,
    sintese: string, conduta: string, obs: string)

  const FormVazio := Formulario(None, "", "", "", "", "")

  const ErroObrigatorios := "Por favor, preencha todos os campos obrigatórios"
  const ClienteNaoEncontrado := "Cliente não encontrado"

  /** `{ ...evolucao, ...formData }` and `{ id, ...formData }`: every field but the id comes
      from the form. */
  function Registro(id: int, f: Formulario): (r: Evolucao)
    ensures r.id == id
    ensures Formulario(r.cliente_id, r.data, r.procedimento, r.sintese, r.conduta, r.obs) == f
  {
    Evolucao(id, f.cliente_id, f.data, f.procedimento, f.sintese, f.conduta, f.obs)
  }

  function Sobrepor(f: Formulario): Evolucao -> Evolucao {
    (e: Evolucao) => Registro(e.id, f)
  }

  /** Client, date, procedure, synthesis and conduct are filled in; the note is optional. */
  predicate Preenchido(f: Formulario) {
    Truthy(f.cliente_id) && f.data != "" && f.procedimento != "" && f.sintese != "" && f.conduta != ""
  }

  /** `handleSubmit` on values. */
  function Submeter(evolucoes: seq<Evolucao>, editingId: Option<int>, f: Formulario): (r: Envio<Evolucao>)
    ensures r.Rejeitado? <==> !Preenchido(f)
    ensures r.Rejeitado? ==> r.erro == ErroObrigatorios
    ensures r.Gravado? && Truthy(editingId) ==>
      |r.lista| == |evolucoes|
      && forall i :: 0 <= i < |evolucoes| ==>
        r.lista[i] == if evolucoes[i].id == editingId.value then Registro(evolucoes[i].id, f) else evolucoes[i]
    ensures r.Gravado? && !Truthy(editingId) ==>
      |r.lista| == |evolucoes| + 1 && r.lista[..|evolucoes|] == evolucoes
      && r.lista[|evolucoes|] == Registro(NextId(evolucoes, EvolucaoId), f)
  {
    if !Preenchido(f) then Rejeitado(ErroObrigatorios)
    else if Truthy(editingId) then Gravado(MapWhere(evolucoes, EvolucaoId, editingId.value, Sobrepor(f)))
    else Gravado(evolucoes + [Registro(NextId(evolucoes, EvolucaoId), f)])
  }

  /** Ids stay distinct through a submit. */
  lemma SubmeterMantemIds(evolucoes: seq<Evolucao>, editingId: Option<int>, f: Formulario)
    requires UniqueIds(evolucoes, EvolucaoId)
    ensures Submeter(evolucoes, editingId, f).Gravado? ==> UniqueIds(Submeter(evolucoes, editingId, f).lista, EvolucaoId)
  {
    var r := Submeter(evolucoes, editingId, f);
    if r.Gravado? {
      if Truthy(editingId) {
        SameIdsUnique(evolucoes, r.lista, EvolucaoId);
      } else {
        FreshAppendUniqueIds(evolucoes, r.lista[|evolucoes|], EvolucaoId);
        assert r.lista == evolucoes + [r.lista[|evolucoes|]];
      }
    }
  }

  /** After a saved edit, the record with that id holds exactly the form. */
  lemma {:induction false} EdicaoGrava(evolucoes: seq<Evolucao>, editingId: int, f: Formulario, i: int)
    requires UniqueIds(evolucoes, EvolucaoId) && editingId != 0 && Preenchido(f)
    requires 0 <= i < |evolucoes| && evolucoes[i].id == editingId
    ensures var r := Submeter(evolucoes, Some(editingId), f);
      r.Gravado? && FindId(r.lista, EvolucaoId, editingId) == Some(Registro(editingId, f))
  {
    var r := Submeter(evolucoes, Some(editingId), f);
    SubmeterMantemIds(evolucoes, Some(editingId), f);
    assert r.lista[i] == Registro(editingId, f);
    FindIdUnique(r.lista, EvolucaoId, r.lista[i]);
  }

  // Client names

  datatype ClienteRef = ClienteRef(id: int, nome: string)

  function ClienteRefId(c: ClienteRef): int { c.id }

  const Clientes := [ClienteRef(1, "João Silva"), ClienteRef(2, "Maria Santos"), ClienteRef(3, "Pedro Oliveira")]

  /** `getClienteNome`: the name of the client with that id, or "Cliente não encontrado". */
  function ClienteNome(clienteId: Option<int>): (r: string)
    ensures r == ClienteNaoEncontrado <==> clienteId.None? || clienteId.value !in {1, 2, 3}
    ensures forall c :: c in Clientes && clienteId == Some(c.id) ==> r == c.nome
  {
    match clienteId
    case None => ClienteNaoEncontrado
    case Some(k) =>
      match FindId(Clientes, ClienteRefId, k)
      case Some(c) => c.nome
      case None => ClienteNaoEncontrado
  }

  // Dictation

  /** One entry of `event.results`: the best alternative's transcript and whether it is
      final. */
  datatype Resultado = Resultado(transcript: string, isFinal: bool)

  /** The fields that can be dictated. */
  datatype Campo = Procedimento | Sintese | Conduta

  /** The final transcripts of `rs`, concatenated in order (built from the end, the way the
      loop grows it). */
  function Finais(rs: seq<Resultado>): string {
    if rs == [] then ""
    else Finais(rs[..|rs| - 1]) + (if rs[|rs| - 1].isFinal then rs[|rs| - 1].transcript else "")
  }

  /** The interim transcripts of `rs`, concatenated in order. */
  function Provisorios(rs: seq<Resultado>): string {
    if rs == [] then ""
    else Provisorios(rs[..|rs| - 1]) + (if rs[|rs| - 1].isFinal then "" else rs[|rs| - 1].transcript)
  }

  /** The results from `k` on (none when `k` is past the end). */
  function Desde(rs: seq<Resultado>, k: nat): seq<Resultado> {
    if k <= |rs| then rs[k..] else []
  }

  /** The loop of `onresult`: final and interim transcripts from `resultIndex` on, each
      concatenated in order. */
  method Transcrever(results: seq<Resultado>, resultIndex: nat) returns (finalTranscript: string, interimTranscript: string)
    ensures finalTranscript == Finais(Desde(results, resultIndex))
    ensures interimTranscript == Provisorios(Desde(results, resultIndex))
  {
    finalTranscript := "";
    interimTranscript := "";
    ghost var rs := Desde(results, resultIndex);
    var i := resultIndex;
    while i < |results|
      invariant resultIndex <= i
      invariant i == resultIndex || i <= |results|
      invariant i - resultIndex <= |rs|
      invariant finalTranscript == Finais(rs[..i - resultIndex])
      invariant interimTranscript == Provisorios(rs[..i - resultIndex])
      decreases |results| - i
    {
      ghost var k := i - resultIndex;
      assert rs[k] == results[i];
      assert rs[..k + 1][..k] == rs[..k];
      var transcript := results[i].transcript;
      if results[i].isFinal {
        finalTranscript := finalTranscript + transcript;
      } else {
        interimTranscript := interimTranscript + transcript;
      }
      i := i + 1;
    }
    assert rs[..i - resultIndex] == rs;
  }

  /** The transcripts of `rs`, front to back. */
  function Juntar(rs: seq<Resultado>): string {
    if rs == [] then "" else rs[0].transcript + Juntar(rs[1..])
  }

  function EhFinal(r: Resultado): bool { r.isFinal }
  function EhProvisorio(r: Resultado): bool { !r.isFinal }

  lemma {:induction false} JuntarConcat(a: seq<Resultado>, b: seq<Resultado>)
    ensures Juntar(a + b) == Juntar(a) + Juntar(b)
  {
    if a == [] {
      assert a + b == b;
    } else {
      assert (a + b)[0] == a[0] && (a + b)[1..] == a[1..] + b;
      JuntarConcat(a[1..], b);
    }
  }

  /** The loop's final text is the transcripts of exactly the final results, in their order. */
  lemma FinaisSaoOsFinais(rs: seq<Resultado>)
    ensures Finais(rs) == Juntar(Filter(rs, EhFinal))
    ensures Provisorios(rs) == Juntar(Filter(rs, EhProvisorio))
  {
    FinaisFiltrados(rs);
    ProvisoriosFiltrados(rs);
  }

  lemma {:induction false} FinaisFiltrados(rs: seq<Resultado>)
    ensures Finais(rs) == Juntar(Filter(rs, EhFinal))
  {
    if rs != [] {
      var a, x := rs[..|rs| - 1], rs[|rs| - 1];
      assert rs == a + [x];
      FinaisFiltrados(a);
      FilterConcat(a, [x], EhFinal);
      JuntarConcat(Filter(a, EhFinal), Filter([x], EhFinal));
      assert Filter([x], EhFinal) == if x.isFinal then [x] else [];
    }
  }

  lemma {:induction false} ProvisoriosFiltrados(rs: seq<Resultado>)
    ensures Provisorios(rs) == Juntar(Filter(rs, EhProvisorio))
  {
    if rs != [] {
      var a, x := rs[..|rs| - 1], rs[|rs| - 1];
      assert rs == a + [x];
      ProvisoriosFiltrados(a);
      FilterConcat(a, [x], EhProvisorio);
      JuntarConcat(Filter(a, EhProvisorio), Filter([x], EhProvisorio));
      assert Filter([x], EhProvisorio) == if x.isFinal then [] else [x];
    }
  }

  /** Every character of the results lands in exactly one of the two texts: together they are
      as long as all transcripts. */
  lemma {:induction false} NadaSePerde(rs: seq<Resultado>)
    ensures |Finais(rs)| + |Provisorios(rs)| == |Juntar(rs)|
  {
    if rs != [] {
      var a, x := rs[..|rs| - 1], rs[|rs| - 1];
      assert rs == a + [x];
      NadaSePerde(a);
      JuntarConcat(a, [x]);
    }
  }

  function Texto(f: Formulario, c: Campo): string {
    match c
    case Procedimento => f.procedimento
    case Sintese => f.sintese
    case Conduta => f.conduta
  }

  /** `[currentField]: prev[currentField] + finalTranscript` when there is final text and a
      field being recorded; the form is untouched otherwise. */
  function Ditar(f: Formulario, campo: Option<Campo>, finalTranscript: string): (r: Formulario)
    ensures finalTranscript == "" || campo.None? ==> r == f
    ensures finalTranscript != "" && campo.Some? ==>
      Texto(r, campo.value) == Texto(f, campo.value) + finalTranscript
      && (forall c :: c != campo.value ==> Texto(r, c) == Texto(f, c))
      && r.cliente_id == f.cliente_id && r.data == f.data && r.obs == f.obs
  {
    if finalTranscript != "" && campo.Some? then
      match campo.value
      case Procedimento => f.(procedimento := f.procedimento + finalTranscript)
      case Sintese => f.(sintese := f.sintese + finalTranscript)
      case Conduta => f.(conduta := f.conduta + finalTranscript)
    else f
  }

  /** Two result events dictating into the same field leave what one event carrying both
      texts would. */
  lemma DitarDuasVezes(f: Formulario, c: Campo, a: string, b: string)
    ensures Ditar(Ditar(f, Some(c), a), Some(c), b) == Ditar(f, Some(c), a + b)
  {
  }

  /** Starting a recording and dictating, as the screen is written. `recognition` holds the
      recognizer the effect built for the current field before the toggle (`anterior`); the
      toggle starts that instance, and its `onresult` closure keeps seeing `anterior`. From an
      idle screen nothing is dictated, and a field started while another records sends its
      text to the other one. */
  function IniciarEDitarComoEscrito(f: Formulario, anterior: Option<Campo>, campo: Campo, texto: string): (r: Formulario)
    ensures anterior.None? ==> r == f
    ensures anterior != Some(campo) ==> Texto(r, campo) == Texto(f, campo)
    ensures anterior.Some? && texto != "" ==> Texto(r, anterior.value) == Texto(f, anterior.value) + texto
  {
    Ditar(f, anterior, texto)
  }

  /** Starting a recording and dictating, as intended: the text goes to the end of the field
      whose microphone was turned on, and nowhere else. */
  function IniciarEDitar(f: Formulario, campo: Campo, texto: string): (r: Formulario)
    ensures Texto(r, campo) == Texto(f, campo) + texto
    ensures forall c :: c != campo ==> Texto(r, c) == Texto(f, c)
    ensures r.cliente_id == f.cliente_id && r.data == f.data && r.obs == f.obs
  {
    Ditar(f, Some(campo), texto)
  }

  /** Turning on the procedure's microphone on an idle screen and dictating "sessão" leaves the
      form as it was in the screen as written, where the intended screen appends the word. */
  lemma DitadoDoRepousoSePerde()
    ensures IniciarEDitarComoEscrito(FormVazio, None, Procedimento, "sessão") == FormVazio
    ensures IniciarEDitar(FormVazio, Procedimento, "sessão") != FormVazio
  {
    assert Texto(IniciarEDitar(FormVazio, Procedimento, "sessão"), Procedimento) == "sessão";
  }

  /** Which of the three fields are being recorded. */
  datatype Gravacao = Gravacao(procedimento: bool, sintese: bool, conduta: bool)

  const Parada := Gravacao(false, false, false)

  function Gravando(g: Gravacao, c: Campo): bool {
    match c
    case Procedimento => g.procedimento
    case Sintese => g.sintese
    case Conduta => g.conduta
  }

  /** `{ ...prev, [fieldName]: v }`. */
  function ComGravando(g: Gravacao, c: Campo, v: bool): (r: Gravacao)
    ensures Gravando(r, c) == v
    ensures forall d :: d != c ==> Gravando(r, d) == Gravando(g, d)
  {
    match c
    case Procedimento => g.(procedimento := v)
    case Sintese => g.(sintese := v)
    case Conduta => g.(conduta := v)
  }

  /** A change event of the dialog: one field and its new value. */
  datatype Evento = Cliente(id: Option<int>) | Data(valor: string) | Obs(valor: string) | Ditado(campo: Campo, valor: string)

  /** `{ ...formData, [e.target.name]: e.target.value }`. */
  function Alterar(f: Formulario, e: Evento): (r: Formulario)
    ensures e.Cliente? ==> r == f.(cliente_id := e.id)
    ensures e.Data? ==> r == f.(data := e.valor)
    ensures e.Obs? ==> r == f.(obs := e.valor)
    ensures e.Ditado? ==> (Texto(r, e.campo) == e.valor && r.cliente_id == f.cliente_id && r.data == f.data
      && r.obs == f.obs && forall c :: c != e.campo ==> Texto(r, c) == Texto(f, c))
  {
    match e
    case Cliente(k) => f.(cliente_id := k)
    case Data(v) => f.(data := v)
    case Obs(v) => f.(obs := v)
    case Ditado(Procedimento, v) => f.(procedimento := v)
    case Ditado(Sintese, v) => f.(sintese := v)
    case Ditado(Conduta, v) => f.(conduta := v)
  }

  // The screen's state

  class TelaEvolucao {
    var evolucoes: seq<Evolucao>
    var open: bool
    var editingId: Option<int>
    var formData: Formulario
    var error: string
    var isRecording: Gravacao
    var currentField: Option<Campo>
    /** Whether the browser offered a speech recognizer when the screen was set up. */
    const suportado: bool

    ghost predicate Valid()
      reads this
    {
      UniqueIds(evolucoes, EvolucaoId)
    }

    /** The screen starts with one record, the dialog closed and nothing being recorded. */
    constructor (reconhecimento: bool)
      ensures Valid() && suportado == reconhecimento
      ensures evolucoes == [Evolucao(1, Some(1), "2024-01-15", "Consulta inicial de avaliação psicológica",
        "Paciente apresenta sintomas de ansiedade generalizada", "Iniciar terapia cognitivo-comportamental",
        "Paciente colaborativo e motivado para o tratamento")]
      ensures !open && editingId == None && formData == FormVazio && error == ""
      ensures isRecording == Parada && currentField == None
    {
      evolucoes := [Evolucao(1, Some(1), "2024-01-15", "Consulta inicial de avaliação psicológica",
        "Paciente apresenta sintomas de ansiedade generalizada", "Iniciar terapia cognitivo-comportamental",
        "Paciente colaborativo e motivado para o tratamento")];
      open := false;
      editingId := None;
      formData := FormVazio;
      error := "";
      isRecording := Parada;
      currentField := None;
      suportado := reconhecimento;
    }

    /** `handleOpen`: a given record is copied into the form; a new one starts with today's
        date (`hoje`, the clock's ISO date). */
    method HandleOpen(evolucao: Option<Evolucao>, hoje: string)
      requires Valid()
      modifies this
      ensures Valid() && open && error == "" && evolucoes == old(evolucoes)
      ensures evolucao.Some? ==> (editingId == Some(evolucao.value.id)
        && Registro(evolucao.value.id, formData) == evolucao.value)
      ensures evolucao.None? ==> editingId == None && formData == FormVazio.(data := hoje)
      ensures isRecording == old(isRecording) && currentField == old(currentField)
    {
      if evolucao.Some? {
        var e := evolucao.value;
        editingId := Some(e.id);
        formData := Formulario(e.cliente_id, e.data, e.procedimento, e.sintese, e.conduta, e.obs);
      } else {
        editingId := None;
        formData := FormVazio.(data := hoje);
      }
      error := "";
      open := true;
    }

    /** `handleClose`. Stopping a running recognizer is left to its `onend` event. */
    method HandleClose()
      requires Valid()
      modifies this
      ensures Valid() && !open && editingId == None && formData == FormVazio && error == ""
      ensures evolucoes == old(evolucoes) && isRecording == old(isRecording) && currentField == old(currentField)
    {
      open := false;
      editingId := None;
      formData := FormVazio;
      error := "";
    }

    /** `handleChange`: one field changes and any error is hidden. */
    method HandleChange(e: Evento)
      requires Valid()
      modifies this
      ensures Valid() && formData == Alterar(old(formData), e) && error == ""
      ensures evolucoes == old(evolucoes) && open == old(open) && editingId == old(editingId)
      ensures isRecording == old(isRecording) && currentField == old(currentField)
    {
      formData := Alterar(formData, e);
      if error != "" { error := ""; }
    }

    /** `handleVoiceToggle`: without a recognizer only an alert is shown; otherwise a field
        being recorded stops and any other starts being the current one. */
    method HandleVoiceToggle(campo: Campo) returns (alerta: bool)
      requires Valid()
      modifies this
      ensures Valid() && alerta == !suportado
      ensures !suportado ==> isRecording == old(isRecording) && currentField == old(currentField)
      ensures suportado && Gravando(old(isRecording), campo) ==>
        isRecording == ComGravando(old(isRecording), campo, false) && currentField == None
      ensures suportado && !Gravando(old(isRecording), campo) ==>
        isRecording == ComGravando(old(isRecording), campo, true) && currentField == Some(campo)
      ensures evolucoes == old(evolucoes) && formData == old(formData) && open == old(open)
      ensures editingId == old(editingId) && error == old(error)
    {
      if !suportado {
        return true;
      }
      if Gravando(isRecording, campo) {
        isRecording := ComGravando(isRecording, campo, false);
        currentField := None;
      } else {
        currentField := Some(campo);
        isRecording := ComGravando(isRecording, campo, true);
      }
      return false;
    }

    /** `onresult` as intended: the final text of the new results goes to the end of the field
        being recorded, the current one. */
    method OnResult(results: seq<Resultado>, resultIndex: nat)
      requires Valid()
      modifies this
      ensures Valid()
      ensures formData == Ditar(old(formData), old(currentField), Finais(Desde(results, resultIndex)))
      ensures old(currentField).Some? ==>
        formData == IniciarEDitar(old(formData), old(currentField).value, Finais(Desde(results, resultIndex)))
      ensures evolucoes == old(evolucoes) && open == old(open) && editingId == old(editingId) && error == old(error)
      ensures isRecording == old(isRecording) && currentField == old(currentField)
    {
      var finalTranscript, interimTranscript := Transcrever(results, resultIndex);
      if finalTranscript != "" && currentField.Some? {
        formData := Ditar(formData, currentField, finalTranscript);
      }
    }

    /** `onend` and `onerror`: nothing is being recorded any more. */
    method OnEnd()
      requires Valid()
      modifies this
      ensures Valid() && isRecording == Parada && currentField == None
      ensures evolucoes == old(evolucoes) && formData == old(formData) && open == old(open)
      ensures editingId == old(editingId) && error == old(error)
    {
      isRecording := Parada;
      currentField := None;
    }

    /** `handleSubmit`: an incomplete form sets the error and changes nothing else; otherwise
        the list is stored and the dialog closes. */
    method HandleSubmit()
      requires Valid()
      modifies this
      ensures Valid()
      ensures var r := Submeter(old(evolucoes), old(editingId), old(formData));
        r.Rejeitado? ==> (error == r.erro && evolucoes == old(evolucoes) && open == old(open)
          && editingId == old(editingId) && formData == old(formData))
      ensures var r := Submeter(old(evolucoes), old(editingId), old(formData));
        r.Gravado? ==> (evolucoes == r.lista && !open && editingId == None && formData == FormVazio && error == "")
      ensures isRecording == old(isRecording) && currentField == old(currentField)
    {
      var r := Submeter(evolucoes, editingId, formData);
      SubmeterMantemIds(evolucoes, editingId, formData);
      if r.Rejeitado? {
        error := r.erro;
        return;
      }
      evolucoes := r.lista;
      HandleClose();
    }

    /** `handleDelete`, with the answer of `window.confirm` as a parameter. */
    method HandleDelete(id: int, confirmado: bool)
      requires Valid()
      modifies this
      ensures Valid()
      ensures evolucoes == if confirmado then WithoutId(old(evolucoes), EvolucaoId, id) else old(evolucoes)
      ensures open == old(open) && editingId == old(editingId) && formData == old(formData) && error == old(error)
      ensures isRecording == old(isRecording) && currentField == old(currentField)
    {
      if confirmado {
        WithoutIdUnique(evolucoes, EvolucaoId, id);
        evolucoes := WithoutId(evolucoes, EvolucaoId, id);
      }
    }
  }
}
