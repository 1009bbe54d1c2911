/** The appointment screen (`Agendamento`): appointments on a calendar, a dialog that creates
    or edits one, a status change from the list, deletion, and the listing of the selected
    day sorted by time. */
module Agendamento {
  import opened Text
  import opened Lists
  import opened Sorting

  /** A stored appointment. `cliente_nome` is `cliente?.nome` (absent when the client is not
      found) and `id_usuario` the id of the user who last saved it (absent on the appointments
      the screen starts with). Dates are `YYYY-MM-DD` texts and times `HH:MM` texts. */
  datatype Agendamento = Agendamento(
    id: int, cliente_id: Option<int>, cliente_nome: Option<string>, data: string, hora: string,
    duracao: string, tipo: string, status: string, valor: string, confirmado: bool,
    observacoes: string, id_usuario: Option<int>)

  function AgendamentoId(a: Agendamento): int { a.id }

  /** The sort key of the day listing: `a.hora.localeCompare(b.hora)`. */
  function HoraDe(a: Agendamento): string { a.hora }

  /** The dialog's fields. */
  datatype Formulario = Formulario(
    cliente_id: Option<int>, data: string, hora: string, duracao: string, tipo: string,
    status: string, observacoes: string, valor: string, confirmado: bool)

  /** The form of a new appointment on `data`. */
  function FormNovo(data: string): Formulario {
    Formulario(None, data, "", "50", "consulta", "agendado", "", "", false)
  }

  /** The form of an appointment being edited. */
  function FormDe(a: Agendamento): Formulario {
    Formulario(a.cliente_id, a.data, a.hora, a.duracao, a.tipo, a.status, a.observacoes, a.valor, a.confirmado)
  }

  // Clients and statuses

  datatype ClienteRef = ClienteRef(id: int, nome: string)

  function ClienteRefId(c: ClienteRef): int { c.id }

  const Clientes := [ClienteRef(1, "Maria Silva Santos"), ClienteRef(2, "João Pedro Oliveira"),
                     ClienteRef(3, "Ana Carolina Lima"), ClienteRef(4, "Carlos Eduardo Santos")]

  /** `clientes.find(c => c.id === formData.cliente_id)?.nome`. */
  function ClienteNome(clienteId: Option<int>): (r: Option<string>)
    ensures r.None? <==> clienteId.None? || clienteId.value !in {1, 2, 3, 4}
    ensures forall c :: c in Clientes && clienteId == Some(c.id) ==> r == Some(c.nome)
  {
    match clienteId
    case None => None
    case Some(k) =>
      match FindId(Clientes, ClienteRefId, k)
      case Some(c) => Some(c.nome)
      case None => None
  }

  datatype OpcaoStatus = OpcaoStatus(value: string, rotulo: string, color: string)

  const StatusOptions := [
    OpcaoStatus("agendado", "Agendado", "primary"),
    OpcaoStatus("confirmado", "Confirmado", "success"),
    OpcaoStatus("realizado", "Realizado", "info"),
    OpcaoStatus("cancelado", "Cancelado", "error"),
    OpcaoStatus("faltou", "Faltou", "warning")]

  function ComValor(status: string): OpcaoStatus -> bool {
    (o: OpcaoStatus) => o.value == status
  }

  /** `getStatusColor`: the colour of the option with that value, or "default". */
  function CorStatus(status: string): (r: string)
    ensures r == "default" <==> forall o :: o in StatusOptions ==> o.value != status
    ensures r != "default" ==> exists o :: o in StatusOptions && o.value == status && o.color == r
  {
    match Find(StatusOptions, ComValor(status))
    case Some(o) => o.color
    case None => "default"
  }

  // Saving, deleting, changing status

  /** `{ ...ag, ...formData, cliente_nome, id_usuario }`: the form over the appointment, keeping
      only its id. */
  function Editado(a: Agendamento, f: Formulario, idUsuario: int): (r: Agendamento)
    ensures r.id == a.id && FormDe(r) == f
    ensures r.cliente_nome == ClienteNome(f.cliente_id) && r.id_usuario == Some(idUsuario)
  {
    Agendamento(a.id, f.cliente_id, ClienteNome(f.cliente_id), f.data, f.hora, f.duracao, f.tipo,
      f.status, f.valor, f.confirmado, f.observacoes, Some(idUsuario))
  }

  function Editar(f: Formulario, idUsuario: int): Agendamento -> Agendamento {
    (a: Agendamento) => Editado(a, f, idUsuario)
  }

  /** `handleSubmit` on values: with an appointment being edited, every stored appointment with
      its id takes the form; otherwise one appointment with id `agora` (`Date.now()`) is
      appended. There is no validation in the handler. */
  function Salvar(agendamentos: seq<Agendamento>, editando: Option<Agendamento>, f: Formulario,
                  idUsuario: int, agora: int): (r: seq<Agendamento>)
    ensures editando.Some? ==>
      |r| == |agendamentos|
      && forall i :: 0 <= i < |r| ==>
        r[i] == if agendamentos[i].id == editando.value.id then Editado(agendamentos[i], f, idUsuario) else agendamentos[i]
    ensures editando.None? ==>
      |r| == |agendamentos| + 1 && r[..|agendamentos|] == agendamentos
      && r[|agendamentos|].id == agora && FormDe(r[|agendamentos|]) == f
      && r[|agendamentos|].cliente_nome == ClienteNome(f.cliente_id) && r[|agendamentos|].id_usuario == Some(idUsuario)
  {
    match editando
    case Some(e) => MapWhere(agendamentos, AgendamentoId, e.id, Editar(f, idUsuario))
    case None => agendamentos + [Editado(FormNovoAgendamento(agora), f, idUsuario)]
  }

  /** The id a new appointment starts from before the form is spread over it. */
  function FormNovoAgendamento(id: int): Agendamento {
    Agendamento(id, None, None, "", "", "", "", "", "", false, "", None)
  }

  /** An edit keeps every id, so distinct ids stay distinct. */
  lemma EdicaoMantemIds(agendamentos: seq<Agendamento>, e: Agendamento, f: Formulario, idUsuario: int, agora: int)
    requires UniqueIds(agendamentos, AgendamentoId)
    ensures UniqueIds(Salvar(agendamentos, Some(e), f, idUsuario, agora), AgendamentoId)
  {
    SameIdsUnique(agendamentos, Salvar(agendamentos, Some(e), f, idUsuario, agora), AgendamentoId);
  }

  /** A creation keeps ids distinct exactly when the clock value is not already an id. */
  lemma {:induction false} CriacaoMantemIds(agendamentos: seq<Agendamento>, f: Formulario, idUsuario: int, agora: int)
    requires UniqueIds(agendamentos, AgendamentoId)
    ensures UniqueIds(Salvar(agendamentos, None, f, idUsuario, agora), AgendamentoId)
      <==> forall a :: a in agendamentos ==> a.id != agora
  {
    var r := Salvar(agendamentos, None, f, idUsuario, agora);
    var n := |agendamentos|;
    if forall a :: a in agendamentos ==> a.id != agora {
      forall i, j | 0 <= i < j < |r| ensures r[i].id != r[j].id {
        if j < n {
          assert r[i] == agendamentos[i] && r[j] == agendamentos[j];
        } else {
          assert r[i] == agendamentos[i];
          assert agendamentos[i] in agendamentos;
        }
      }
    } else {
      var a :| a in agendamentos && a.id == agora;
      var i :| 0 <= i < n && agendamentos[i] == a;
      assert r[i] == a && r[n].id == agora;
    }
  }

  /** After an edit, the edited id finds the form with the client's name and the user. */
  lemma {:induction false} EdicaoGrava(agendamentos: seq<Agendamento>, e: Agendamento, f: Formulario,
                                       idUsuario: int, agora: int, i: int)
    requires UniqueIds(agendamentos, AgendamentoId) && 0 <= i < |agendamentos| && agendamentos[i].id == e.id
    ensures var r := Salvar(agendamentos, Some(e), f, idUsuario, agora);
      FindId(r, AgendamentoId, e.id) == Some(Editado(agendamentos[i], f, idUsuario))
  {
    var r := Salvar(agendamentos, Some(e), f, idUsuario, agora);
    EdicaoMantemIds(agendamentos, e, f, idUsuario, agora);
    FindIdUnique(r, AgendamentoId, r[i]);
  }

  function ComStatus(s: string): Agendamento -> Agendamento {
    (a: Agendamento) => a.(status := s)
  }

  /** `handleStatusChange`. */
  function MudarStatus(agendamentos: seq<Agendamento>, id: int, novo: string): (r: seq<Agendamento>)
    ensures |r| == |agendamentos|
    ensures forall i :: 0 <= i < |r| ==> r[i].status == (if agendamentos[i].id == id then novo else agendamentos[i].status)
  {
    MapWhere(agendamentos, AgendamentoId, id, ComStatus(novo))
  }

  /** A status change touches no other field of any appointment. */
  lemma MudarStatusSoStatus(agendamentos: seq<Agendamento>, id: int, novo: string, i: int)
    requires 0 <= i < |agendamentos|
    ensures MudarStatus(agendamentos, id, novo)[i].(status := agendamentos[i].status) == agendamentos[i]
  {
  }

  /** `handleDelete` once confirmed: exactly the appointments with other ids, in their order. */
  function Excluir(agendamentos: seq<Agendamento>, id: int): (r: seq<Agendamento>)
    ensures forall a :: a in r <==> a in agendamentos && a.id != id
    ensures IsSubseq(r, agendamentos)
  {
    WithoutId(agendamentos, AgendamentoId, id)
  }

  // The day listing

  function NaData(data: string): Agendamento -> bool {
    (a: Agendamento) => a.data == data
  }

  /** `getAgendamentosData`: the appointments on `data`, in stored order. */
  function DoDia(agendamentos: seq<Agendamento>, data: string): (r: seq<Agendamento>)
    ensures forall a :: a in r <==> a in agendamentos && a.data == data
    ensures IsSubseq(r, agendamentos)
  {
    Filter(agendamentos, NaData(data))
  }

  /** The list shown for the selected day: that day's appointments sorted by time. */
  function ListaDoDia(agendamentos: seq<Agendamento>, data: string): seq<Agendamento> {
    SortByKey(DoDia(agendamentos, data), HoraDe)
  }

  /** The day listing is ordered by time and holds exactly that day's appointments, each as
      often as it is stored; appointments at the same time keep their stored order. */
  lemma ListaDoDiaCorreta(agendamentos: seq<Agendamento>, data: string)
    ensures SortedBy(ListaDoDia(agendamentos, data), HoraDe)
    ensures multiset(ListaDoDia(agendamentos, data)) == multiset(DoDia(agendamentos, data))
    ensures forall a :: a in ListaDoDia(agendamentos, data) <==> a in agendamentos && a.data == data
    ensures forall h ::
      Filter(ListaDoDia(agendamentos, data), ComChave(HoraDe, h)) == Filter(DoDia(agendamentos, data), ComChave(HoraDe, h))
  {
    forall h ensures Filter(ListaDoDia(agendamentos, data), ComChave(HoraDe, h))
      == Filter(DoDia(agendamentos, data), ComChave(HoraDe, h)) {
      SortByKeyStable(DoDia(agendamentos, data), HoraDe, h);
    }
    SortByKeyCorrect(DoDia(agendamentos, data), HoraDe);
    var l := ListaDoDia(agendamentos, data);
    forall a ensures a in l <==> a in DoDia(agendamentos, data) {
      assert a in l <==> a in multiset(l);
      assert a in DoDia(agendamentos, data) <==> a in multiset(DoDia(agendamentos, data));
    }
  }

  /** The save button is enabled only when not saving and client, date and time are set. */
  function PodeSalvar(loading: bool, f: Formulario): (r: bool)
    ensures r <==> !loading && f.cliente_id.Some? && f.cliente_id.value != 0 && f.data != "" && f.hora != ""
  {
    !(loading || !Truthy(f.cliente_id) || f.data == "" || f.hora == "")
  }

  /** A change of one form field (`handleChange(field, value)`). */
  datatype Campo = Data | Hora | Duracao | Tipo | Status | Valor | Observacoes
  datatype Evento = Cliente(id: Option<int>) | Texto(campo: Campo, valor: string)

  function Alterar(f: Formulario, e: Evento): (r: Formulario)
    ensures e.Cliente? ==> r == f.(cliente_id := e.id)
    ensures e.Texto? ==> r.cliente_id == f.cliente_id && r.confirmado == f.confirmado
    ensures e.Texto? && e.campo == Hora ==> r == f.(hora := e.valor)
    ensures e.Texto? && e.campo == Data ==> r == f.(data := e.valor)
    ensures e.Texto? && e.campo == Duracao ==> r == f.(duracao := e.valor)
    ensures e.Texto? && e.campo == Tipo ==> r == f.(tipo := e.valor)
    ensures e.Texto? && e.campo == Status ==> r == f.(status := e.valor)
    ensures e.Texto? && e.campo == Valor ==> r == f.(valor := e.valor)
    ensures e.Texto? && e.campo == Observacoes ==> r == f.(observacoes := e.valor)
  {
    match e
    case Cliente(k) => f.(cliente_id := k)
    case Texto(Data, v) => f.(data := v)
    case Texto(Hora, v) => f.(hora := v)
    case Texto(Duracao, v) => f.(duracao := v)
    case Texto(Tipo, v) => f.(tipo := v)
    case Texto(Status, v) => f.(status := v)
    case Texto(Valor, v) => f.(valor := v)
    case Texto(Observacoes, v) => f.(observacoes := v)
  }

  // The screen's state

  class TelaAgendamento {
    var agendamentos: seq<Agendamento>
    var selectedDate: string
    var openDialog: bool
    var editingAppointment: Option<Agendamento>
    var loading: bool
    var formData: Formulario

    /** The screen starts on `hoje` with three appointments, two today and one on `amanha`. */
    constructor (hoje: string, amanha: string)
      ensures selectedDate == hoje && !openDialog && editingAppointment == None && !loading
      ensures formData == FormNovo("")
      ensures agendamentos == [
        Agendamento(1, Some(1), Some("Maria Silva Santos"), hoje, "09:00", "50", "consulta", "agendado", "150.00", true, "Primeira consulta", None),
        Agendamento(2, Some(2), Some("João Pedro Oliveira"), hoje, "10:00", "50", "retorno", "confirmado", "120.00", true, "", None),
        Agendamento(3, Some(3), Some("Ana Carolina Lima"), amanha, "14:00", "50", "consulta", "agendado", "150.00", false, "Avaliação inicial", None)]
    {
      agendamentos := [
        Agendamento(1, Some(1), Some("Maria Silva Santos"), hoje, "09:00", "50", "consulta", "agendado", "150.00", true, "Primeira consulta", None),
        Agendamento(2, Some(2), Some("João Pedro Oliveira"), hoje, "10:00", "50", "retorno", "confirmado", "120.00", true, "", None),
        Agendamento(3, Some(3), Some("Ana Carolina Lima"), amanha, "14:00", "50", "consulta", "agendado", "150.00", false, "Avaliação inicial", None)];
      selectedDate := hoje;
      openDialog := false;
      editingAppointment := None;
      loading := false;
      formData := FormNovo("");
    }

    /** The effect that refills the form whenever the dialog, the appointment being edited or
        the selected date changes: with the dialog open it loads the appointment, or a new
        form on the selected date. */
    method PreencherFormulario()
      modifies this
      ensures openDialog && editingAppointment.Some? ==> formData == FormDe(editingAppointment.value)
      ensures openDialog && editingAppointment.None? ==> formData == FormNovo(selectedDate)
      ensures !openDialog ==> formData == old(formData)
      ensures agendamentos == old(agendamentos) && selectedDate == old(selectedDate) && openDialog == old(openDialog)
      ensures editingAppointment == old(editingAppointment) && loading == old(loading)
    {
      if openDialog && editingAppointment.Some? {
        formData := FormDe(editingAppointment.value);
      } else if openDialog {
        formData := FormNovo(selectedDate);
      }
    }

    /** `handleDateChange`, followed by the effect. */
    method HandleDateChange(novaData: string)
      modifies this
      ensures selectedDate == novaData
      ensures openDialog && editingAppointment.Some? ==> formData == FormDe(editingAppointment.value)
      ensures openDialog && editingAppointment.None? ==> formData == FormNovo(novaData)
      ensures !openDialog ==> formData == old(formData)
      ensures agendamentos == old(agendamentos) && openDialog == old(openDialog)
      ensures editingAppointment == old(editingAppointment) && loading == old(loading)
    {
      selectedDate := novaData;
      PreencherFormulario();
    }

    /** `handleOpenDialog`, followed by the effect. */
    method HandleOpenDialog(appointment: Option<Agendamento>)
      modifies this
      ensures openDialog && editingAppointment == appointment
      ensures appointment.Some? ==> formData == FormDe(appointment.value)
      ensures appointment.None? ==> formData == FormNovo(selectedDate)
      ensures agendamentos == old(agendamentos) && selectedDate == old(selectedDate) && loading == old(loading)
    {
      editingAppointment := appointment;
      openDialog := true;
      PreencherFormulario();
    }

    /** `handleCloseDialog`. */
    method HandleCloseDialog()
      modifies this
      ensures !openDialog && editingAppointment == None && formData == FormNovo("")
      ensures agendamentos == old(agendamentos) && selectedDate == old(selectedDate) && loading == old(loading)
    {
      openDialog := false;
      editingAppointment := None;
      formData := FormNovo("");
    }

    /** `handleChange(field, value)`. */
    method HandleChange(e: Evento)
      modifies this
      ensures formData == Alterar(old(formData), e)
      ensures agendamentos == old(agendamentos) && selectedDate == old(selectedDate) && openDialog == old(openDialog)
      ensures editingAppointment == old(editingAppointment) && loading == old(loading)
    {
      formData := Alterar(formData, e);
    }

    /** `handleSubmit`, with the logged-in user's id and `Date.now()` as parameters: the list is
        saved, the dialog closes and `loading` ends false. */
    method HandleSubmit(idUsuario: int, agora: int)
      modifies this
      ensures agendamentos == Salvar(old(agendamentos), old(editingAppointment), old(formData), idUsuario, agora)
      ensures !openDialog && editingAppointment == None && formData == FormNovo("") && !loading
      ensures selectedDate == old(selectedDate)
    {
      loading := true;
      agendamentos := Salvar(agendamentos, editingAppointment, formData, idUsuario, agora);
      HandleCloseDialog();
      loading := false;
    }

    /** `handleDelete`, with the answer of `window.confirm` as a parameter. */
    method HandleDelete(id: int, confirmado: bool)
      modifies this
      ensures agendamentos == if confirmado then Excluir(old(agendamentos), id) else old(agendamentos)
      ensures selectedDate == old(selectedDate) && openDialog == old(openDialog) && formData == old(formData)
      ensures editingAppointment == old(editingAppointment) && loading == old(loading)
    {
      if confirmado {
        agendamentos := Excluir(agendamentos, id);
      }
    }

    /** `handleStatusChange`. */
    method HandleStatusChange(id: int, novo: string)
      modifies this
      ensures agendamentos == MudarStatus(old(agendamentos), id, novo)
      ensures selectedDate == old(selectedDate) && openDialog == old(openDialog) && formData == old(formData)
      ensures editingAppointment == old(editingAppointment) && loading == old(loading)
    {
      agendamentos := MudarStatus(agendamentos, id, novo);
    }
  }
}
