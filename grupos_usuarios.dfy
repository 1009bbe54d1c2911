/** The user-group screen (`GruposUsuarios`): each group has a name, ten permission switches
    and a free note. One dialog creates or edits a group; the table shows one role chip per
    group and how many of the ten permissions it grants. */
module GruposUsuarios {
  import opened Text
  import opened Lists

  /** A permission switch of a group, named like the checkbox that drives it. */
  datatype Chave = Adm | AdmSuper | Cadastro | Evolucao | Experiencias | Recebimentos
                 | Despesas | Agenda | Pdf | Usuario

  /** The ten switches of a group, in the order `getPermissionsCount` lists them:
      `adm, adm_super, cadastro, evolucao, experiencias, recebimentos, despesas, agenda, pdf,
      usuario`. */
  type Permissoes = s: seq<bool> | |s| == 10
    witness [false, false, false, false, false, false, false, false, false, false]

  datatype Grupo = Grupo(id: int, grupo: string, permissoes: Permissoes, obs: string)

  function GrupoId(g: Grupo): int { g.id }

  /** The dialog's fields. */
  datatype Formulario = Formulario(grupo: string, permissoes: Permissoes, obs: string)

  const Nenhuma: Permissoes := [false, false, false, false, false, false, false, false, false, false]
  const Todas: Permissoes := [true, true, true, true, true, true, true, true, true, true]
  const FormVazio := Formulario("", Nenhuma, "")

  const ErroNome := "Por favor, preencha o nome do grupo"

  /** Where a switch sits among the ten. */
  function Indice(c: Chave): (i: nat)
    ensures i < 10
  {
    match c
    case Adm => 0
    case AdmSuper => 1
    case Cadastro => 2
    case Evolucao => 3
    case Experiencias => 4
    case Recebimentos => 5
    case Despesas => 6
    case Agenda => 7
    case Pdf => 8
    case Usuario => 9
  }

  /** No two switches share a place. */
  lemma IndiceInjetivo(c: Chave, d: Chave)
    ensures Indice(c) == Indice(d) ==> c == d
  {
  }

  function Tem(p: Permissoes, c: Chave): bool {
    p[Indice(c)]
  }

  /** Sets one switch and leaves the other nine alone. */
  function Com(p: Permissoes, c: Chave, v: bool): (r: Permissoes)
    ensures Tem(r, c) == v
    ensures forall d :: d != c ==> Tem(r, d) == Tem(p, d)
  {
    p[Indice(c) := v]
  }

  function Ligada(b: bool): bool { b }

  /** `getPermissionsCount`: how many switches are on, shown as "n/10 permissões"; ten means
      every switch, none means no switch. */
  function ContarPermissoes(p: Permissoes): (r: nat)
    ensures r <= 10
    ensures r == 10 <==> p == Todas
    ensures r == 0 <==> p == Nenhuma
  {
    CountAll(p, Ligada);
    CountNone(p, Ligada);
    Uniformes(p);
    Count(p, Ligada)
  }

  /** Ten switches all on are `Todas`, all off are `Nenhuma`. */
  lemma Uniformes(p: Permissoes)
    ensures (forall x :: x in p ==> x) <==> p == Todas
    ensures (forall x :: x in p ==> !x) <==> p == Nenhuma
  {
    if forall x :: x in p ==> x {
      forall i | 0 <= i < 10 ensures p[i] == Todas[i] {
        assert p[i] in p;
      }
    }
    if forall x :: x in p ==> !x {
      forall i | 0 <= i < 10 ensures p[i] == Nenhuma[i] {
        assert p[i] in p;
      }
    }
  }

  /** Turning on a switch that was off adds exactly one to the count, and turning on one that
      was already on leaves it. */
  lemma MarcarConta(p: Permissoes, c: Chave)
    ensures ContarPermissoes(Com(p, c, true)) == ContarPermissoes(p) + (if Tem(p, c) then 0 else 1)
  {
    CountUpdate(p, Indice(c), true, Ligada);
  }

  /** Turning off a switch that was on takes exactly one from the count. */
  lemma DesmarcarConta(p: Permissoes, c: Chave)
    ensures ContarPermissoes(Com(p, c, false)) + (if Tem(p, c) then 1 else 0) == ContarPermissoes(p)
  {
    CountUpdate(p, Indice(c), false, Ligada);
  }

  /** The role chips of a row: "Super Admin" for a super administrator, "Admin" for an
      administrator who is not super, "Usuário" for a group with neither switch. */
  function Chips(p: Permissoes): (r: seq<string>)
    ensures |r| == 1
    ensures r == ["Super Admin"] <==> Tem(p, AdmSuper)
    ensures r == ["Admin"] <==> Tem(p, Adm) && !Tem(p, AdmSuper)
    ensures r == ["Usuário"] <==> !Tem(p, Adm) && !Tem(p, AdmSuper)
  {
    assert "Super Admin"[0] == 'S' && "Admin"[0] == 'A' && "Usuário"[0] == 'U';
    assert ["Super Admin"][0] != ["Admin"][0] && ["Admin"][0] != ["Usuário"][0] && ["Super Admin"][0] != ["Usuário"][0];
    (if Tem(p, AdmSuper) then ["Super Admin"] else [])
    + (if Tem(p, Adm) && !Tem(p, AdmSuper) then ["Admin"] else [])
    + (if !Tem(p, Adm) && !Tem(p, AdmSuper) then ["Usuário"] else [])
  }

  /** What a submit stores under `id`: the form with name and note trimmed. */
  function Gravar(id: int, f: Formulario): Grupo {
    Grupo(id, Trim(f.grupo), f.permissoes, Trim(f.obs))
  }

  function Substituir(f: Formulario): Grupo -> Grupo {
    (g: Grupo) => Gravar(g.id, f)
  }

  /** `handleSubmit` on values: a blank name is refused; with a (truthy) `editingId` the group
      with that id takes the form, otherwise the form is appended under a fresh id. */
  function Submeter(grupos: seq<Grupo>, editingId: Option<int>, f: Formulario): (r: Envio<Grupo>)
    ensures r.Rejeitado? <==> AllSpace(f.grupo)
    ensures r.Rejeitado? ==> r.erro == ErroNome
    ensures r.Gravado? && Truthy(editingId) ==>
      |r.lista| == |grupos|
      && forall i :: 0 <= i < |grupos| ==>
        r.lista[i] == if grupos[i].id == editingId.value then Gravar(grupos[i].id, f) else grupos[i]
    ensures r.Gravado? && !Truthy(editingId) ==>
      |r.lista| == |grupos| + 1 && r.lista[..|grupos|] == grupos
      && r.lista[|grupos|] == Gravar(NextId(grupos, GrupoId), f)
      && forall g :: g in grupos ==> g.id < r.lista[|grupos|].id
  {
    TrimBlankIff(f.grupo);
    if Trim(f.grupo) == "" then Rejeitado(ErroNome)
    else if Truthy(editingId) then Gravado(MapWhere(grupos, GrupoId, editingId.value, Substituir(f)))
    else Gravado(grupos + [Gravar(NextId(grupos, GrupoId), f)])
  }

  /** Ids stay distinct through a submit. */
  lemma SubmeterMantemIds(grupos: seq<Grupo>, editingId: Option<int>, f: Formulario)
    requires UniqueIds(grupos, GrupoId)
    ensures Submeter(grupos, editingId, f).Gravado? ==> UniqueIds(Submeter(grupos, editingId, f).lista, GrupoId)
  {
    var r := Submeter(grupos, editingId, f);
    if r.Gravado? {
      if Truthy(editingId) {
        SameIdsUnique(grupos, r.lista, GrupoId);
      } else {
        FreshAppendUniqueIds(grupos, r.lista[|grupos|], GrupoId);
        assert r.lista == grupos + [r.lista[|grupos|]];
      }
    }
  }

  /** Opening a group and submitting the dialog unchanged gives the group back with its name
      and note trimmed: editing without typing changes nothing else. */
  lemma {:induction false} AbrirESalvar(grupos: seq<Grupo>, i: int)
    requires UniqueIds(grupos, GrupoId) && 0 <= i < |grupos| && grupos[i].id != 0
    requires !AllSpace(grupos[i].grupo)
    ensures var g := grupos[i];
      var r := Submeter(grupos, Some(g.id), Formulario(g.grupo, g.permissoes, g.obs));
      r.Gravado? && FindId(r.lista, GrupoId, g.id) == Some(g.(grupo := Trim(g.grupo), obs := Trim(g.obs)))
  {
    var g := grupos[i];
    var f := Formulario(g.grupo, g.permissoes, g.obs);
    var r := Submeter(grupos, Some(g.id), f);
    SubmeterMantemIds(grupos, Some(g.id), f);
    assert r.lista[i] == g.(grupo := Trim(g.grupo), obs := Trim(g.obs));
    FindIdUnique(r.lista, GrupoId, r.lista[i]);
  }

  /** A change event of the dialog: a text field (`grupo` or `obs`) or a checkbox. */
  datatype Evento = NomeGrupo(valor: string) | Observacao(valor: string) | Caixa(chave: Chave, marcado: bool)

  /** `{ ...formData, [name]: type === 'checkbox' ? checked : value }`. */
  function Alterar(f: Formulario, e: Evento): (r: Formulario)
    ensures e.NomeGrupo? ==> r == f.(grupo := e.valor)
    ensures e.Observacao? ==> r == f.(obs := e.valor)
    ensures e.Caixa? ==> (r.grupo == f.grupo && r.obs == f.obs && Tem(r.permissoes, e.chave) == e.marcado
      && forall c :: c != e.chave ==> Tem(r.permissoes, c) == Tem(f.permissoes, c))
  {
    match e
    case NomeGrupo(v) => f.(grupo := v)
    case Observacao(v) => f.(obs := v)
    case Caixa(c, m) => f.(permissoes := Com(f.permissoes, c, m))
  }

  // The screen's state

  class TelaGrupos {
    var grupos: seq<Grupo>
    var open: bool
    var editingId: Option<int>
    var formData: Formulario
    var error: string

    ghost predicate Valid()
      reads this
    {
      UniqueIds(grupos, GrupoId)
    }

    /** The screen starts with the Administrador, Psicólogo and Recepcionista groups. */
    constructor ()
      ensures Valid() && |grupos| == 3
      ensures grupos[0] == Grupo(1, "Administrador", Todas, "Acesso total ao sistema")
      ensures grupos[1] == Grupo(2, "Psicólogo", [false, false, true, true, true, false, false, true, true, false], "Acesso clínico")
      ensures grupos[2] == Grupo(3, "Recepcionista", [false, false, true, false, false, true, false, true, false, false], "Acesso administrativo")
      ensures !open && editingId == None && formData == FormVazio && error == ""
    {
      grupos := [
        Grupo(1, "Administrador", Todas, "Acesso total ao sistema"),
        Grupo(2, "Psicólogo", [false, false, true, true, true, false, false, true, true, false], "Acesso clínico"),
        Grupo(3, "Recepcionista", [false, false, true, false, false, true, false, true, false, false], "Acesso administrativo")
      ];
      open := false;
      editingId := None;
      formData := FormVazio;
      error := "";
    }

    /** `handleOpen`: a given group is copied into the form; none starts an empty form. */
    method HandleOpen(grupo: Option<Grupo>)
      requires Valid()
      modifies this
      ensures Valid() && open && error == "" && grupos == old(grupos)
      ensures grupo.Some? ==> (editingId == Some(grupo.value.id)
        && formData == Formulario(grupo.value.grupo, grupo.value.permissoes, grupo.value.obs))
      ensures grupo.None? ==> editingId == None && formData == FormVazio
    {
      if grupo.Some? {
        editingId := Some(grupo.value.id);
        formData := Formulario(grupo.value.grupo, grupo.value.permissoes, grupo.value.obs);
      } else {
        editingId := None;
        formData := FormVazio;
      }
      error := "";
      open := true;
    }

    /** `handleClose`. */
    method HandleClose()
      requires Valid()
      modifies this
      ensures Valid() && !open && editingId == None && formData == FormVazio && error == ""
      ensures grupos == old(grupos)
    {
      open := false;
      editingId := None;
      formData := FormVazio;
      error := "";
    }

    /** `handleChange`: one field or switch changes and any error is hidden. */
    method HandleChange(e: Evento)
      requires Valid()
      modifies this
      ensures Valid() && formData == Alterar(old(formData), e) && error == ""
      ensures grupos == old(grupos) && open == old(open) && editingId == old(editingId)
    {
      formData := Alterar(formData, e);
      if error != "" { error := ""; }
    }

    /** `handleSubmit`: a blank name sets the error and changes nothing else; otherwise the new
        list is stored and the dialog closes. */
    method HandleSubmit()
      requires Valid()
      modifies this
      ensures Valid()
      ensures var r := Submeter(old(grupos), old(editingId), old(formData));
        r.Rejeitado? ==> (error == r.erro && grupos == old(grupos) && open == old(open)
          && editingId == old(editingId) && formData == old(formData))
      ensures var r := Submeter(old(grupos), old(editingId), old(formData));
        r.Gravado? ==> (grupos == r.lista && !open && editingId == None && formData == FormVazio && error == "")
    {
      var r := Submeter(grupos, editingId, formData);
      SubmeterMantemIds(grupos, editingId, formData);
      if r.Rejeitado? {
        error := r.erro;
        return;
      }
      grupos := r.lista;
      HandleClose();
    }

    /** `handleDelete`, with the answer of `window.confirm` as a parameter. */
    method HandleDelete(id: int, confirmado: bool)
      requires Valid()
      modifies this
      ensures Valid()
      ensures grupos == if confirmado then WithoutId(old(grupos), GrupoId, id) else old(grupos)
      ensures open == old(open) && editingId == old(editingId) && formData == old(formData) && error == old(error)
    {
      if confirmado {
        WithoutIdUnique(grupos, GrupoId, id);
        grupos := WithoutId(grupos, GrupoId, id);
      }
    }
  }
}
