/** The expense screen (`Despesas`): expenses with date, description, amount, type and a
    creation timestamp. The amount field is cleaned as it is typed; a submit needs every field
    and a positive amount, then edits the expense being edited or appends a new one. */
module Despesas {
  import opened Text
  import opened Lists

  /** A stored expense; `valor` is the parsed amount. */
  datatype Despesa = Despesa(
    id: int, data: string, descricao: string, valor: real, tipo_despesa_id: int, created_at: string)

  function DespesaId(d: Despesa): int { d.id }

  /** The dialog's fields; `tipo_despesa_id` is `None` for the empty selection. */
  datatype Formulario = Formulario(data: string, descricao: string, valor: string, tipo_despesa_id: Option<int>)

  const FormVazio := Formulario("", "", "", None)

  /** What `parseFloat` gives for the amount text: not a number, or a number. */
  datatype Numero = NaN | Num(v: real)

  const ErroCampos := "Por favor, preencha todos os campos"
  const ErroValor := "Por favor, insira um valor válido"
  const TipoNaoEncontrado := "Tipo não encontrado"

  // The amount sanitiser

  /** The characters the amount field keeps: digits, '.' and ','. */
  predicate Permitido(c: char) {
    IsDigit(c) || c == '.' || c == ','
  }

  function EhVirgula(c: char): bool { c == ',' }

  /** `value.replace(/[^\d.,]/g, '')`. */
  function Limpar(s: string): (r: string)
    ensures forall c :: c in r <==> c in s && Permitido(c)
    ensures IsSubseq(r, s)
  {
    Filter(s, Permitido)
  }

  /** `value.replace(',', '.')`: only the first comma becomes a dot. */
  function TrocarPrimeiraVirgula(s: string): (r: string)
    ensures |r| == |s|
    ensures ',' !in s ==> r == s
    ensures ',' in s ==> exists k :: 0 <= k < |s| && s[k] == ',' && ',' !in s[..k] && r == s[k := '.']
  {
    var k := IndexOf(s, ',');
    if k < 0 then s else s[k := '.']
  }

  /** The `valor` branch of `handleChange`. */
  function Sanitizar(value: string): (r: string)
    ensures forall c :: c in r ==> Permitido(c)
    ensures |r| == Count(value, Permitido)
  {
    TrocarPrimeiraVirgula(Limpar(value))
  }

  /** Text made only of digits and dots passes through unchanged. */
  lemma SanitizarDigitosEPontos(s: string)
    requires forall c :: c in s ==> IsDigit(c) || c == '.'
    ensures Sanitizar(s) == s
  {
    FilterKeepsAll(s, Permitido);
  }

  /** Exactly one comma (the first) turns into a dot: the cleaned text has one comma more than
      the result, or none at all. */
  lemma {:induction false} SanitizarVirgulas(s: string)
    ensures var l := Limpar(s);
      if ',' in l then Count(Sanitizar(s), EhVirgula) + 1 == Count(l, EhVirgula)
      else Count(Sanitizar(s), EhVirgula) == 0
  {
    var l := Limpar(s);
    if ',' in l {
      var k := IndexOf(l, ',');
      CountUpdate(l, k, '.', EhVirgula);
    } else {
      CountNone(l, EhVirgula);
    }
  }

  /** Cleaning twice removes nothing more. */
  lemma LimparIdempotente(s: string)
    ensures Limpar(Limpar(s)) == Limpar(s)
  {
    FilterKeepsAll(Limpar(s), Permitido);
  }

  // Submitting

  /** Date, description, amount text and type are all non-empty (no trimming). */
  predicate Preenchido(f: Formulario) {
    f.data != "" && f.descricao != "" && f.valor != "" && Truthy(f.tipo_despesa_id)
  }

  predicate ValorValido(n: Numero) {
    n.Num? && n.v > 0.0
  }

  /** The two checks of `handleSubmit`, in order, on the outcome of each test. */
  function Verificar(faltaCampo: bool, valorInvalido: bool): (r: Option<string>)
    ensures r.Some? ==> r.value == ErroCampos || r.value == ErroValor
    ensures r == Some(ErroCampos) <==> faltaCampo
    ensures r == Some(ErroValor) <==> !faltaCampo && valorInvalido
  {
    assert ErroCampos[11] != ErroValor[11];
    if faltaCampo then Some(ErroCampos)
    else if valorInvalido then Some(ErroValor)
    else None
  }

  /** The record an edit leaves for `d`: date, trimmed description, amount and type from the
      form; id and creation time kept. */
  function Editado(d: Despesa, f: Formulario, valor: real): (r: Despesa)
    requires f.tipo_despesa_id.Some?
    ensures r.id == d.id && r.created_at == d.created_at
    ensures r.data == f.data && r.descricao == Trim(f.descricao) && r.valor == valor
    ensures r.tipo_despesa_id == f.tipo_despesa_id.value
  {
    d.(data := f.data, descricao := Trim(f.descricao), valor := valor, tipo_despesa_id := f.tipo_despesa_id.value)
  }

  function Editar(f: Formulario, valor: real): Despesa -> Despesa
    requires f.tipo_despesa_id.Some?
  {
    (d: Despesa) => Editado(d, f, valor)
  }

  /** `handleSubmit` on values. `valorNumerico` is `parseFloat(formData.valor)` and `agora`
      the clock's timestamp. */
  function Submeter(despesas: seq<Despesa>, editingId: Option<int>, f: Formulario, valorNumerico: Numero,
                    agora: string): (r: Envio<Despesa>)
    ensures r.Rejeitado? <==> !Preenchido(f) || !ValorValido(valorNumerico)
    ensures r.Rejeitado? ==> (r.erro == ErroCampos <==> !Preenchido(f))
    ensures r.Rejeitado? ==> (r.erro == ErroValor <==> Preenchido(f))
    ensures r.Gravado? && Truthy(editingId) ==>
      |r.lista| == |despesas|
      && forall i :: 0 <= i < |despesas| ==>
        r.lista[i] == if despesas[i].id == editingId.value then Editado(despesas[i], f, valorNumerico.v) else despesas[i]
    ensures r.Gravado? && !Truthy(editingId) ==>
      |r.lista| == |despesas| + 1 && r.lista[..|despesas|] == despesas
      && r.lista[|despesas|] == Despesa(NextId(despesas, DespesaId), f.data, Trim(f.descricao), valorNumerico.v,
                                         f.tipo_despesa_id.value, agora)
  {
    match Verificar(!Preenchido(f), !ValorValido(valorNumerico))
    case Some(e) => Rejeitado(e)
    case None =>
      if Truthy(editingId) then
        Gravado(MapWhere(despesas, DespesaId, editingId.value, Editar(f, valorNumerico.v)))
      else
        Gravado(despesas + [Despesa(NextId(despesas, DespesaId), f.data, Trim(f.descricao), valorNumerico.v,
                                    f.tipo_despesa_id.value, agora)])
  }

  /** What every stored list keeps: distinct ids and positive amounts. */
  ghost predicate Consistente(despesas: seq<Despesa>) {
    UniqueIds(despesas, DespesaId) && forall d :: d in despesas ==> d.valor > 0.0
  }

  /** A saved submit keeps the list consistent. */
  lemma SubmeterMantem(despesas: seq<Despesa>, editingId: Option<int>, f: Formulario, n: Numero, agora: string)
    requires Consistente(despesas)
    ensures var r := Submeter(despesas, editingId, f, n, agora);
      r.Gravado? ==> Consistente(r.lista)
  {
    var r := Submeter(despesas, editingId, f, n, agora);
    if r.Gravado? {
      if Truthy(editingId) {
        SameIdsUnique(despesas, r.lista, DespesaId);
        forall d | d in r.lista ensures d.valor > 0.0 {
          var i :| 0 <= i < |r.lista| && r.lista[i] == d;
          assert despesas[i] in despesas;
        }
      } else {
        FreshAppendUniqueIds(despesas, r.lista[|despesas|], DespesaId);
        assert r.lista == despesas + [r.lista[|despesas|]];
      }
    }
  }

  /** The checks do not trim the description: one made only of blanks is accepted and stored
      empty. */
  lemma DescricaoEmBrancoAceita(f: Formulario, n: Numero, agora: string)
    requires f.data != "" && f.valor != "" && Truthy(f.tipo_despesa_id) && ValorValido(n)
    requires f.descricao == " "
    ensures var r := Submeter([], None, f, n, agora);
      r.Gravado? && r.lista[0].descricao == ""
  {
    assert Trim(" ") == "" by {
      TrimBlankIff(" ");
    }
  }

  /** Deleting keeps the list consistent. */
  lemma ExcluirMantem(despesas: seq<Despesa>, id: int)
    requires Consistente(despesas)
    ensures Consistente(WithoutId(despesas, DespesaId, id))
  {
    WithoutIdUnique(despesas, DespesaId, id);
  }

  // Type names

  datatype TipoDespesa = TipoDespesa(id: int, ds_tipo: string)

  function TipoDespesaId(t: TipoDespesa): int { t.id }

  const TiposDespesa := [TipoDespesa(1, "Material"), TipoDespesa(2, "Aluguel"), TipoDespesa(3, "Equipamentos"),
                         TipoDespesa(4, "Serviços")]

  /** `getTipoDespesaNome`: the name of the type with that id, or "Tipo não encontrado". */
  function TipoDespesaNome(tipoId: int): (r: string)
    ensures r == TipoNaoEncontrado <==> tipoId !in {1, 2, 3, 4}
    ensures forall t :: t in TiposDespesa && t.id == tipoId ==> r == t.ds_tipo
  {
    match FindId(TiposDespesa, TipoDespesaId, tipoId)
    case Some(t) => t.ds_tipo
    case None => TipoNaoEncontrado
  }

  // Typing in the dialog

  datatype CampoTexto = Data | Descricao | Valor

  /** A change event of the dialog: a text field or the type selection. */
  datatype Evento = Texto(campo: CampoTexto, valor: string) | Tipo(id: Option<int>)

  /** `{ ...formData, [e.target.name]: value }`, the amount sanitised first. */
  function Alterar(f: Formulario, e: Evento): (r: Formulario)
    ensures e.Tipo? ==> r == f.(tipo_despesa_id := e.id)
    ensures e.Texto? && e.campo == Data ==> r == f.(data := e.valor)
    ensures e.Texto? && e.campo == Descricao ==> r == f.(descricao := e.valor)
    ensures e.Texto? && e.campo == Valor ==> r == f.(valor := Sanitizar(e.valor))
  {
    match e
    case Tipo(k) => f.(tipo_despesa_id := k)
    case Texto(Data, v) => f.(data := v)
    case Texto(Descricao, v) => f.(descricao := v)
    case Texto(Valor, v) => f.(valor := Sanitizar(v))
  }

  // The screen's state

  class TelaDespesas {
    var despesas: seq<Despesa>
    var open: bool
    var editingId: Option<int>
    var formData: Formulario
    var error: string

    ghost predicate Valid()
      reads this
    {
      Consistente(despesas)
    }

    /** The screen starts with two expenses and the dialog closed. */
    constructor ()
      ensures Valid()
      ensures despesas == [
        Despesa(1, "2024-01-15", "Material de escritório", 150.50, 1, "2024-01-15 10:30:00"),
        Despesa(2, "2024-01-20", "Aluguel do consultório", 1200.00, 2, "2024-01-20 14:15:00")]
      ensures !open && editingId == None && formData == FormVazio && error == ""
    {
      despesas := [
        Despesa(1, "2024-01-15", "Material de escritório", 150.50, 1, "2024-01-15 10:30:00"),
        Despesa(2, "2024-01-20", "Aluguel do consultório", 1200.00, 2, "2024-01-20 14:15:00")];
      open := false;
      editingId := None;
      formData := FormVazio;
      error := "";
    }

    /** `handleOpen`: a given expense is copied into the form, its amount as `valorTexto`
        (`valor.toString()`); a new one starts with today's date `hoje`. */
    method HandleOpen(despesa: Option<Despesa>, valorTexto: string, hoje: string)
      requires Valid()
      modifies this
      ensures Valid() && open && error == "" && despesas == old(despesas)
      ensures despesa.Some? ==> (editingId == Some(despesa.value.id)
        && formData == Formulario(despesa.value.data, despesa.value.descricao, valorTexto, Some(despesa.value.tipo_despesa_id)))
      ensures despesa.None? ==> editingId == None && formData == FormVazio.(data := hoje)
    {
      if despesa.Some? {
        var d := despesa.value;
        editingId := Some(d.id);
        formData := Formulario(d.data, d.descricao, valorTexto, Some(d.tipo_despesa_id));
      } else {
        editingId := None;
        formData := FormVazio.(data := hoje);
      }
      error := "";
      open := true;
    }

    /** `handleClose`. */
    method HandleClose()
      requires Valid()
      modifies this
      ensures Valid() && !open && editingId == None && formData == FormVazio && error == ""
      ensures despesas == old(despesas)
    {
      open := false;
      editingId := None;
      formData := FormVazio;
      error := "";
    }

    /** `handleChange`: the amount text is cleaned step by step, then stored like any other
        field; any error is hidden. */
    method HandleChange(e: Evento)
      requires Valid()
      modifies this
      ensures Valid() && formData == Alterar(old(formData), e) && error == ""
      ensures despesas == old(despesas) && open == old(open) && editingId == old(editingId)
    {
      if e.Tipo? {
        formData := formData.(tipo_despesa_id := e.id);
      } else {
        var value := e.valor;
        if e.campo == Valor {
          value := Limpar(value);
          value := TrocarPrimeiraVirgula(value);
        }
        match e.campo
        case Data => formData := formData.(data := value);
        case Descricao => formData := formData.(descricao := value);
        case Valor => formData := formData.(valor := value);
      }
      if error != "" { error := ""; }
    }

    /** `handleSubmit`: a missing field or an amount that is not a positive number sets the
        matching error and changes nothing else; otherwise the list is stored and the dialog
        closes. */
    method HandleSubmit(valorNumerico: Numero, agora: string)
      requires Valid()
      modifies this
      ensures Valid()
      ensures var r := Submeter(old(despesas), old(editingId), old(formData), valorNumerico, agora);
        r.Rejeitado? ==> (error == r.erro && despesas == old(despesas) && open == old(open)
          && editingId == old(editingId) && formData == old(formData))
      ensures var r := Submeter(old(despesas), old(editingId), old(formData), valorNumerico, agora);
        r.Gravado? ==> (despesas == r.lista && !open && editingId == None && formData == FormVazio && error == "")
    {
      var r := Submeter(despesas, editingId, formData, valorNumerico, agora);
      SubmeterMantem(despesas, editingId, formData, valorNumerico, agora);
      if r.Rejeitado? {
        error := r.erro;
        return;
      }
      despesas := r.lista;
      HandleClose();
    }

    /** `handleDelete`, with the answer of `window.confirm` as a parameter. */
    method HandleDelete(id: int, confirmado: bool)
      requires Valid()
      modifies this
      ensures Valid()
      ensures despesas == if confirmado then WithoutId(old(despesas), DespesaId, id) else old(despesas)
      ensures open == old(open) && editingId == old(editingId) && formData == old(formData) && error == old(error)
    {
      if confirmado {
        ExcluirMantem(despesas, id);
        despesas := WithoutId(despesas, DespesaId, id);
      }
    }
  }
}
