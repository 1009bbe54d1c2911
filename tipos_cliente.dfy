/** The client-type screen (`TiposCliente`): a list of client types edited through one dialog
    with a single description field. Submitting a blank description only shows an error;
    otherwise the dialog either renames the type being edited or appends a new one. */
module TiposCliente {
  import opened Text
  import opened Lists

  datatype Tipo = Tipo(id: int, ds_tipo_cliente: string)

  function TipoId(t: Tipo): int { t.id }

  const ErroDescricao := "Por favor, preencha o tipo de cliente"

  /** `{ ...tipo, ds_tipo_cliente: ds }`. */
  function ComDescricao(ds: string): Tipo -> Tipo {
    (t: Tipo) => t.(ds_tipo_cliente := ds)
  }

  /** `handleSubmit` on values. `editingId` is the id of the type being edited (`None` for
      `null`), `ds` the text typed in the dialog. */
  function Submeter(tipos: seq<Tipo>, editingId: Option<int>, ds: string): (r: Envio<Tipo>)
    ensures r.Rejeitado? <==> AllSpace(ds)
    ensures r.Rejeitado? ==> r.erro == ErroDescricao
    ensures r.Gravado? && Truthy(editingId) ==>
      |r.lista| == |tipos|
      && forall i :: 0 <= i < |tipos| ==>
        r.lista[i] == if tipos[i].id == editingId.value then Tipo(tipos[i].id, Trim(ds)) else tipos[i]
    ensures r.Gravado? && !Truthy(editingId) ==>
      |r.lista| == |tipos| + 1 && r.lista[..|tipos|] == tipos
      && r.lista[|tipos|] == Tipo(NextId(tipos, TipoId), Trim(ds))
      && forall x :: x in tipos ==> x.id < r.lista[|tipos|].id
  {
    TrimBlankIff(ds);
    if Trim(ds) == "" then Rejeitado(ErroDescricao)
    else if Truthy(editingId) then Gravado(MapWhere(tipos, TipoId, editingId.value, ComDescricao(Trim(ds))))
    else Gravado(tipos + [Tipo(NextId(tipos, TipoId), Trim(ds))])
  }

  /** No submit makes two types share an id: an edit keeps every id and an addition takes a
      fresh one. */
  lemma SubmeterMantemIds(tipos: seq<Tipo>, editingId: Option<int>, ds: string)
    requires UniqueIds(tipos, TipoId)
    ensures Submeter(tipos, editingId, ds).Gravado? ==> UniqueIds(Submeter(tipos, editingId, ds).lista, TipoId)
  {
    var r := Submeter(tipos, editingId, ds);
    if r.Gravado? {
      if Truthy(editingId) {
        SameIdsUnique(tipos, r.lista, TipoId);
      } else {
        FreshAppendUniqueIds(tipos, r.lista[|tipos|], TipoId);
        assert r.lista == tipos + [r.lista[|tipos|]];
      }
    }
  }

  /** After an edit, looking the edited id up in the new list finds that type with the
      trimmed description, provided the id was in the list. */
  lemma {:induction false} EdicaoRenomeia(tipos: seq<Tipo>, editingId: int, ds: string, i: int)
    requires UniqueIds(tipos, TipoId) && editingId != 0 && !AllSpace(ds)
    requires 0 <= i < |tipos| && tipos[i].id == editingId
    ensures var r := Submeter(tipos, Some(editingId), ds);
      r.Gravado? && FindId(r.lista, TipoId, editingId) == Some(Tipo(editingId, Trim(ds)))
  {
    var r := Submeter(tipos, Some(editingId), ds);
    SubmeterMantemIds(tipos, Some(editingId), ds);
    assert r.lista[i] == Tipo(editingId, Trim(ds));
    FindIdUnique(r.lista, TipoId, r.lista[i]);
  }

  // The screen's state

  class TelaTipos {
    var tipos: seq<Tipo>
    var open: bool
    var editingId: Option<int>
    var formData: string
    var error: string

    /** Ids stay unique through every handler. */
    ghost predicate Valid()
      reads this
    {
      UniqueIds(tipos, TipoId)
    }

    /** The screen starts with three types and the dialog closed. */
    constructor ()
      ensures Valid() && tipos == [Tipo(1, "Particular"), Tipo(2, "Convênio"), Tipo(3, "Empresa")]
      ensures !open && editingId == None && formData == "" && error == ""
    {
      tipos := [Tipo(1, "Particular"), Tipo(2, "Convênio"), Tipo(3, "Empresa")];
      open := false;
      editingId := None;
      formData := "";
      error := "";
    }

    /** `handleOpen`: a given type is loaded for editing, none starts a new one. */
    method HandleOpen(tipo: Option<Tipo>)
      requires Valid()
      modifies this
      ensures Valid() && open && error == "" && tipos == old(tipos)
      ensures tipo.Some? ==> editingId == Some(tipo.value.id) && formData == tipo.value.ds_tipo_cliente
      ensures tipo.None? ==> editingId == None && formData == ""
    {
      if tipo.Some? {
        editingId := Some(tipo.value.id);
        formData := tipo.value.ds_tipo_cliente;
      } else {
        editingId := None;
        formData := "";
      }
      error := "";
      open := true;
    }

    /** `handleClose`. */
    method HandleClose()
      requires Valid()
      modifies this
      ensures Valid() && !open && editingId == None && formData == "" && error == ""
      ensures tipos == old(tipos)
    {
      open := false;
      editingId := None;
      formData := "";
      error := "";
    }

    /** `handleChange`: the typed text is stored and any error is hidden. */
    method HandleChange(valor: string)
      requires Valid()
      modifies this
      ensures Valid() && formData == valor && error == ""
      ensures tipos == old(tipos) && open == old(open) && editingId == old(editingId)
    {
      formData := valor;
      if error != "" { error := ""; }
    }

    /** `handleSubmit`: a blank description sets the error and changes nothing else; any other
        stores the new list and closes the dialog with an empty form. */
    method HandleSubmit()
      requires Valid()
      modifies this
      ensures Valid()
      ensures var r := Submeter(old(tipos), old(editingId), old(formData));
        r.Rejeitado? ==> (error == r.erro && tipos == old(tipos) && open == old(open)
          && editingId == old(editingId) && formData == old(formData))
      ensures var r := Submeter(old(tipos), old(editingId), old(formData));
        r.Gravado? ==> (tipos == r.lista && !open && editingId == None && formData == "" && error == "")
    {
      var r := Submeter(tipos, editingId, formData);
      SubmeterMantemIds(tipos, editingId, formData);
      if r.Rejeitado? {
        error := r.erro;
        return;
      }
      tipos := r.lista;
      HandleClose();
    }

    /** `handleDelete`, with the answer of `window.confirm` as a parameter. */
    method HandleDelete(id: int, confirmado: bool)
      requires Valid()
      modifies this
      ensures Valid()
      ensures tipos == if confirmado then WithoutId(old(tipos), TipoId, id) else old(tipos)
      ensures open == old(open) && editingId == old(editingId) && formData == old(formData) && error == old(error)
    {
      if confirmado {
        WithoutIdUnique(tipos, TipoId, id);
        tipos := WithoutId(tipos, TipoId, id);
      }
    }
  }
}
