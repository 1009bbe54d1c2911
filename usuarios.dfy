/** The user screen (`Usuarios`): system users with name, e-mail, login, phone, group, photo
    and password. One dialog creates or edits a user; a password is demanded only when
    creating, and an edit keeps the old password unless a new one is typed. */
module Usuarios {
  import opened Text
  import opened Lists

  /** A stored user. `id_grupo` is `None` for the empty selection, `foto` is a data URL or
      `null`, and `senha` is absent from the users the screen starts with. */
  datatype Usuario = Usuario(
    id: int, nm_usuario: string, email: string, login: string, celular: string,
    id_grupo: Option<int>, foto: Option<string>, senha: Option<string>)

  function UsuarioId(u: Usuario): int { u.id }

  /** The dialog's fields. */
  datatype Formulario = Formulario(
    nm_usuario: string, email: string, login: string, celular: string,
    id_grupo: Option<int>, senha: string, foto: Option<string>)

  const FormVazio := Formulario("", "", "", "", None, "", None)

  /** The groups a user can be put in. */
  datatype GrupoRef = GrupoRef(id: int, grupo: string)

  function GrupoRefId(g: GrupoRef): int { g.id }

  const Grupos := [GrupoRef(1, "Administrador"), GrupoRef(2, "Psicólogo"), GrupoRef(3, "Recepcionista")]

  const ErroObrigatorios := "Por favor, preencha todos os campos obrigatórios"
  const ErroSenha := "Por favor, defina uma senha para o novo usuário"

  /** Name, e-mail and login hold more than blanks and a group is chosen. */
  predicate Completo(f: Formulario) {
    !AllSpace(f.nm_usuario) && !AllSpace(f.email) && !AllSpace(f.login) && Truthy(f.id_grupo)
  }

  /** The two checks of `handleSubmit`, in order, on the outcome of each test: a required
      field blank or no group chosen, then a new user without password. */
  function Verificar(faltaCampo: bool, novo: bool, semSenha: bool): (r: Option<string>)
    ensures r.Some? ==> r.value == ErroObrigatorios || r.value == ErroSenha
    ensures r == Some(ErroObrigatorios) <==> faltaCampo
    ensures r == Some(ErroSenha) <==> !faltaCampo && novo && semSenha
  {
    assert ErroObrigatorios[11] != ErroSenha[11];
    if faltaCampo then Some(ErroObrigatorios)
    else if novo && semSenha then Some(ErroSenha)
    else None
  }

  /** `handleSubmit`'s checks on the form. */
  function Erro(f: Formulario, editingId: Option<int>): (r: Option<string>)
    ensures r.Some? ==> r.value == ErroObrigatorios || r.value == ErroSenha
    ensures r == Some(ErroObrigatorios) <==> !Completo(f)
    ensures r == Some(ErroSenha) <==> Completo(f) && !Truthy(editingId) && AllSpace(f.senha)
  {
    TrimBlankIff(f.nm_usuario);
    TrimBlankIff(f.email);
    TrimBlankIff(f.login);
    TrimBlankIff(f.senha);
    Verificar(Trim(f.nm_usuario) == "" || Trim(f.email) == "" || Trim(f.login) == "" || !Truthy(f.id_grupo),
      !Truthy(editingId), Trim(f.senha) == "")
  }

  /** The record an edit leaves for `u`: texts trimmed, group and photo from the form, and
      the typed password (as typed) only when it is not blank. */
  function Editado(u: Usuario, f: Formulario): (r: Usuario)
    ensures r.id == u.id
    ensures r.senha == if AllSpace(f.senha) then u.senha else Some(f.senha)
  {
    TrimBlankIff(f.senha);
    Usuario(u.id, Trim(f.nm_usuario), Trim(f.email), Trim(f.login), Trim(f.celular),
      f.id_grupo, f.foto, if Trim(f.senha) != "" then Some(f.senha) else u.senha)
  }

  function Editar(f: Formulario): Usuario -> Usuario {
    (u: Usuario) => Editado(u, f)
  }

  /** The record an addition appends: texts and password trimmed. */
  function Novo(id: int, f: Formulario): Usuario {
    Usuario(id, Trim(f.nm_usuario), Trim(f.email), Trim(f.login), Trim(f.celular),
      f.id_grupo, f.foto, Some(Trim(f.senha)))
  }

  /** `handleSubmit` on values: refused with the first failing check's message, otherwise an
      edit of the user with (truthy) `editingId` or an addition under a fresh id. */
  function Submeter(usuarios: seq<Usuario>, editingId: Option<int>, f: Formulario): (r: Envio<Usuario>)
    ensures r.Rejeitado? <==> Erro(f, editingId).Some?
    ensures r.Rejeitado? ==> r.erro == Erro(f, editingId).value
    ensures r.Gravado? && Truthy(editingId) ==>
      |r.lista| == |usuarios|
      && forall i :: 0 <= i < |usuarios| ==>
        r.lista[i] == if usuarios[i].id == editingId.value then Editado(usuarios[i], f) else usuarios[i]
    ensures r.Gravado? && !Truthy(editingId) ==>
      |r.lista| == |usuarios| + 1 && r.lista[..|usuarios|] == usuarios
      && r.lista[|usuarios|] == Novo(NextId(usuarios, UsuarioId), f)
      && forall u :: u in usuarios ==> u.id < r.lista[|usuarios|].id
  {
    match Erro(f, editingId)
    case Some(e) => Rejeitado(e)
    case None =>
      if Truthy(editingId) then Gravado(MapWhere(usuarios, UsuarioId, editingId.value, Editar(f)))
      else Gravado(usuarios + [Novo(NextId(usuarios, UsuarioId), f)])
  }

  /** A new user always gets a password with more than blanks. */
  lemma NovoTemSenha(usuarios: seq<Usuario>, f: Formulario)
    ensures var r := Submeter(usuarios, None, f);
      r.Gravado? ==> r.lista[|usuarios|].senha.Some? && !AllSpace(r.lista[|usuarios|].senha.value)
  {
    TrimShape(f.senha);
  }

  /** Ids stay distinct through a submit. */
  lemma SubmeterMantemIds(usuarios: seq<Usuario>, editingId: Option<int>, f: Formulario)
    requires UniqueIds(usuarios, UsuarioId)
    ensures Submeter(usuarios, editingId, f).Gravado? ==> UniqueIds(Submeter(usuarios, editingId, f).lista, UsuarioId)
  {
    var r := Submeter(usuarios, editingId, f);
    if r.Gravado? {
      if Truthy(editingId) {
        SameIdsUnique(usuarios, r.lista, UsuarioId);
      } else {
        FreshAppendUniqueIds(usuarios, r.lista[|usuarios|], UsuarioId);
        assert r.lista == usuarios + [r.lista[|usuarios|]];
      }
    }
  }

  /** Opening a user and saving without typing a password keeps the stored password; the
      rest of the record comes back with its texts trimmed. */
  lemma {:induction false} EditarSemSenhaMantem(usuarios: seq<Usuario>, i: int)
    requires UniqueIds(usuarios, UsuarioId) && 0 <= i < |usuarios| && usuarios[i].id != 0
    requires var u := usuarios[i]; Completo(Formulario(u.nm_usuario, u.email, u.login, u.celular, u.id_grupo, "", u.foto))
    ensures var u := usuarios[i];
      var r := Submeter(usuarios, Some(u.id), Formulario(u.nm_usuario, u.email, u.login, u.celular, u.id_grupo, "", u.foto));
      r.Gravado? && FindId(r.lista, UsuarioId, u.id)
        == Some(u.(nm_usuario := Trim(u.nm_usuario), email := Trim(u.email), login := Trim(u.login), celular := Trim(u.celular)))
  {
    var u := usuarios[i];
    var f := Formulario(u.nm_usuario, u.email, u.login, u.celular, u.id_grupo, "", u.foto);
    var r := Submeter(usuarios, Some(u.id), f);
    SubmeterMantemIds(usuarios, Some(u.id), f);
    assert r.lista[i] == Editado(u, f);
    FindIdUnique(r.lista, UsuarioId, r.lista[i]);
  }

  /** `getGrupoNome`: the name of the group with that id, or "N/A". */
  function GrupoNome(idGrupo: Option<int>): (r: string)
    ensures r == "N/A" <==> idGrupo.None? || idGrupo.value !in {1, 2, 3}
    ensures idGrupo == Some(1) <==> r == "Administrador"
    ensures forall g :: g in Grupos && idGrupo == Some(g.id) ==> r == g.grupo
  {
    match idGrupo
    case None => "N/A"
    case Some(k) =>
      match FindId(Grupos, GrupoRefId, k)
      case Some(g) => g.grupo
      case None => "N/A"
  }

  /** The test the "Administradores" card counts users with: the group found for the user's
      `id_grupo` is called "Administrador" (`find(...)?.grupo === 'Administrador'`). */
  function EhAdministrador(u: Usuario): bool {
    match u.id_grupo
    case None => false
    case Some(k) =>
      var g := FindId(Grupos, GrupoRefId, k);
      g.Some? && g.value.grupo == "Administrador"
  }

  function NoGrupo1(u: Usuario): bool { u.id_grupo == Some(1) }

  /** The "Administradores" card. */
  function Administradores(usuarios: seq<Usuario>): (r: nat)
    ensures r <= |usuarios|
  {
    Count(usuarios, EhAdministrador)
  }

  /** The card counts the users in group 1, the ones the table shows as "Administrador". */
  lemma AdministradoresNoGrupo1(usuarios: seq<Usuario>)
    ensures Administradores(usuarios) == Count(usuarios, NoGrupo1)
    ensures forall u :: u in usuarios ==> (EhAdministrador(u) <==> GrupoNome(u.id_grupo) == "Administrador")
  {
    assert forall u :: EhAdministrador(u) == NoGrupo1(u);
    FilterSame(usuarios, EhAdministrador, NoGrupo1);
  }

  /** A change event of the dialog: one text field or the group selection. */
  datatype Campo = Nome | Email | Login | Celular | Senha
  datatype Evento = Texto(campo: Campo, valor: string) | Grupo(id_grupo: Option<int>)

  /** `{ ...formData, [e.target.name]: e.target.value }`. */
  function Alterar(f: Formulario, e: Evento): (r: Formulario)
    ensures e.Grupo? ==> r == f.(id_grupo := e.id_grupo)
    ensures e.Texto? ==> r.id_grupo == f.id_grupo && r.foto == f.foto
    ensures e.Texto? && e.campo == Senha ==> r == f.(senha := e.valor)
    ensures e.Texto? && e.campo != Senha ==> r.senha == f.senha
    ensures e.Texto? && e.campo == Nome ==> r == f.(nm_usuario := e.valor)
    ensures e.Texto? && e.campo == Email ==> r == f.(email := e.valor)
    ensures e.Texto? && e.campo == Login ==> r == f.(login := e.valor)
    ensures e.Texto? && e.campo == Celular ==> r == f.(celular := e.valor)
  {
    match e
    case Grupo(g) => f.(id_grupo := g)
    case Texto(Nome, v) => f.(nm_usuario := v)
    case Texto(Email, v) => f.(email := v)
    case Texto(Login, v) => f.(login := v)
    case Texto(Celular, v) => f.(celular := v)
    case Texto(Senha, v) => f.(senha := v)
  }

  // The screen's state

  class TelaUsuarios {
    var usuarios: seq<Usuario>
    var open: bool
    var editingId: Option<int>
    var formData: Formulario
    var error: string

    ghost predicate Valid()
      reads this
    {
      UniqueIds(usuarios, UsuarioId)
    }

    /** The screen starts with two users and the dialog closed. */
    constructor ()
      ensures Valid()
      ensures usuarios == [
        Usuario(1, "Dr. João Silva", "joao@gestao-psi.com", "joao.silva", "(11) 99999-9999", Some(1), None, None),
        Usuario(2, "Dra. Maria Santos", "maria@gestao-psi.com", "maria.santos", "(11) 88888-8888", Some(2), None, None)]
      ensures !open && editingId == None && formData == FormVazio && error == ""
    {
      usuarios := [
        Usuario(1, "Dr. João Silva", "joao@gestao-psi.com", "joao.silva", "(11) 99999-9999", Some(1), None, None),
        Usuario(2, "Dra. Maria Santos", "maria@gestao-psi.com", "maria.santos", "(11) 88888-8888", Some(2), None, None)];
      open := false;
      editingId := None;
      formData := FormVazio;
      error := "";
    }

    /** `handleOpen`: a given user is copied into the form with an empty password. */
    method HandleOpen(usuario: Option<Usuario>)
      requires Valid()
      modifies this
      ensures Valid() && open && error == "" && usuarios == old(usuarios)
      ensures usuario.Some? ==> (editingId == Some(usuario.value.id)
        && formData == Formulario(usuario.value.nm_usuario, usuario.value.email, usuario.value.login,
             usuario.value.celular, usuario.value.id_grupo, "", usuario.value.foto))
      ensures usuario.None? ==> editingId == None && formData == FormVazio
    {
      if usuario.Some? {
        var u := usuario.value;
        editingId := Some(u.id);
        formData := Formulario(u.nm_usuario, u.email, u.login, u.celular, u.id_grupo, "", u.foto);
      } else {
        editingId := None;
        formData := FormVazio;
      }
      error := "";
      open := true;
    }

    /** `handleClose`. */
    method HandleClose()
      requires Valid()
      modifies this
      ensures Valid() && !open && editingId == None && formData == FormVazio && error == ""
      ensures usuarios == old(usuarios)
    {
      open := false;
      editingId := None;
      formData := FormVazio;
      error := "";
    }

    /** `handleChange`: one field changes and any error is hidden. */
    method HandleChange(e: Evento)
      requires Valid()
      modifies this
      ensures Valid() && formData == Alterar(old(formData), e) && error == ""
      ensures usuarios == old(usuarios) && open == old(open) && editingId == old(editingId)
    {
      formData := Alterar(formData, e);
      if error != "" { error := ""; }
    }

    /** `handleFileChange` once the reader has produced the data URL of the chosen file;
        with no file chosen nothing happens. */
    method HandleFileChange(dataUrl: Option<string>)
      requires Valid()
      modifies this
      ensures Valid() && formData == if dataUrl.Some? then old(formData).(foto := dataUrl) else old(formData)
      ensures usuarios == old(usuarios) && open == old(open) && editingId == old(editingId) && error == old(error)
    {
      if dataUrl.Some? {
        formData := formData.(foto := dataUrl);
      }
    }

    /** `handleSubmit`: an incomplete form or a new user without password sets the matching
        error and changes nothing else; otherwise the list is stored and the dialog closes. */
    method HandleSubmit()
      requires Valid()
      modifies this
      ensures Valid()
      ensures var r := Submeter(old(usuarios), old(editingId), old(formData));
        r.Rejeitado? ==> (error == r.erro && usuarios == old(usuarios) && open == old(open)
          && editingId == old(editingId) && formData == old(formData))
      ensures var r := Submeter(old(usuarios), old(editingId), old(formData));
        r.Gravado? ==> (usuarios == r.lista && !open && editingId == None && formData == FormVazio && error == "")
    {
      var r := Submeter(usuarios, editingId, formData);
      SubmeterMantemIds(usuarios, editingId, formData);
      if r.Rejeitado? {
        error := r.erro;
        return;
      }
      usuarios := r.lista;
      HandleClose();
    }

    /** `handleDelete`, with the answer of `window.confirm` as a parameter. */
    method HandleDelete(id: int, confirmado: bool)
      requires Valid()
      modifies this
      ensures Valid()
      ensures usuarios == if confirmado then WithoutId(old(usuarios), UsuarioId, id) else old(usuarios)
      ensures open == old(open) && editingId == old(editingId) && formData == old(formData) && error == old(error)
    {
      if confirmado {
        WithoutIdUnique(usuarios, UsuarioId, id);
        usuarios := WithoutId(usuarios, UsuarioId, id);
      }
    }
  }
}
