/** The client form (`ClienteForm`): field-by-field validation of the required fields and the
    e-mail pattern, field edits that clear that field's error, submission of a valid form with
    the logged-in user's id, the spouse section and the avatar initials. */
module ClienteForm {
  import opened Text
  import opened Lists
  import ClientesList

  /** A form value: text inputs and selects give strings (a select's options give numbers),
      switches give booleans. */
  datatype Valor = Texto(s: string) | Numero(n: int) | Logico(b: bool)

  /** JavaScript truthiness of a stored value; a missing key reads as `undefined`. */
  predicate Verdadeiro(form: map<string, Valor>, campo: string) {
    campo in form &&
    match form[campo]
    case Texto(s) => s != ""
    case Numero(n) => n != 0
    case Logico(b) => b
  }

  /** The text fields of the form, all empty at first. */
  const CamposTexto: set<string> := {
    "nome", "foto", "genero_id", "estado_civil_id", "escolaridade_id", "abordagem_id",
    "tipo_cliente_id", "idade", "ocupacao", "cep", "endereco", "numero", "complemento", "bairro",
    "cidade", "uf", "telefone_fixo", "celular", "email", "emergencia_ligar_para",
    "emergencia_fone", "reside_com", "nome_conjuge", "idade_conjuge", "escolaridade_conjuge",
    "ocupacao_conjuge", "filhos", "nome_pai", "idade_pai", "ocupacao_pai", "escolaridade_pai",
    "nome_mae", "idade_mae", "escolaridade_mae", "ocupacao_mae", "queixa_principal",
    "mudancas_periodo", "sintomas_sinais", "acontecimento_marcante", "relacionamento_familiar",
    "outras_obs", "tentativa_suicidio", "tratamento_psicologico", "alguma_doenca",
    "uso_medicamento", "familiar_doenca_mental", "abuso_alcool", "obs_geral", "dia_atendimento",
    "hora_atendimento", "valor_atendimento"}

  /** The switches of the form and their first positions. */
  const Switches: map<string, Valor> := map[
    "tentativa_suicidio_sn" := Logico(false), "tratamento_psicologico_sn" := Logico(false),
    "alguma_doenca_sn" := Logico(false), "uso_medicamentos_sn" := Logico(false),
    "familiar_doenca_mental_sn" := Logico(false), "abuso_alcool_sn" := Logico(false),
    "ativo" := Logico(true), "acessa_link_recadastro" := Logico(false),
    "acessa_link_experiencia" := Logico(false)]

  /** The form as first shown. */
  const FormInicial: map<string, Valor> := (map k | k in CamposTexto :: Texto("")) + Switches

  /** The fields `validateForm` reads as text hold text. */
  predicate BemFormado(form: map<string, Valor>) {
    "nome" in form && form["nome"].Texto? && "email" in form && form["email"].Texto?
  }

  // The e-mail pattern `\S+@\S+\.\S+`

  predicate SemEspaco(s: string) {
    forall i :: 0 <= i < |s| ==> !IsSpace(s[i])
  }

  /** `s[a..e]` is a match of the pattern, with its '@' at `p` and its '.' at `q`. */
  predicate CasamentoEmail(s: string, a: int, p: int, q: int, e: int) {
    0 <= a < p && p + 1 < q && q + 1 < e <= |s|
    && SemEspaco(s[a..p]) && s[p] == '@' && SemEspaco(s[p + 1..q]) && s[q] == '.' && SemEspaco(s[q + 1..e])
  }

  /** `/\S+@\S+\.\S+/.test(s)`: the unanchored pattern matches somewhere in `s`. */
  ghost predicate CasaPadraoEmail(s: string) {
    exists a, p, q, e :: CasamentoEmail(s, a, p, q, e)
  }

  /** An '@' at `p` and a '.' at `q` with a non-space before the '@', only non-spaces between
      them, and a non-space after the '.'. */
  predicate ArrobaPonto(s: string, p: int, q: int) {
    1 <= p && p + 2 <= q && q + 2 <= |s|
    && s[p] == '@' && s[q] == '.' && !IsSpace(s[p - 1]) && !IsSpace(s[q + 1]) && SemEspaco(s[p + 1..q])
  }

  /** The test the form runs, decided by looking for an '@' and a '.' around which the shortest
      match can be built. */
  predicate EmailValido(s: string) {
    exists p, q | 0 <= p < |s| && 0 <= q < |s| :: ArrobaPonto(s, p, q)
  }

  /** `formData.email && !pattern.test(formData.email)`: a non-empty e-mail the pattern does
      not match. */
  predicate EmailRuim(s: string) {
    s != "" && !EmailValido(s)
  }

  /** The decision agrees with the pattern on every string. */
  lemma EmailValidoIff(s: string)
    ensures EmailValido(s) <==> CasaPadraoEmail(s)
  {
    if EmailValido(s) {
      var p, q :| 0 <= p < |s| && 0 <= q < |s| && ArrobaPonto(s, p, q);
      assert CasamentoEmail(s, p - 1, p, q, q + 2);
    }
    if CasaPadraoEmail(s) {
      var a, p, q, e :| CasamentoEmail(s, a, p, q, e);
      assert s[p - 1] == s[a..p][p - 1 - a];
      assert s[q + 1] == s[q + 1..e][0];
      assert ArrobaPonto(s, p, q);
    }
  }

  // Validation

  const ErroNome := "Nome é obrigatório"
  const ErroGenero := "Gênero é obrigatório"
  const ErroEstadoCivil := "Estado civil é obrigatório"
  const ErroTipoCliente := "Tipo de cliente é obrigatório"
  const ErroEmail := "Email inválido"

  /** `if (c) newErrors[k] = m`. */
  function AdicionarSe(e: map<string, string>, c: bool, k: string, m: string): map<string, string> {
    if c then e[k := m] else e
  }

  /** The error map built from the five failed checks, in the order `validateForm` runs them. */
  function MapaErros(nome: bool, genero: bool, estadoCivil: bool, tipoCliente: bool, email: bool): map<string, string> {
    var e1 := AdicionarSe(map[], nome, "nome", ErroNome);
    var e2 := AdicionarSe(e1, genero, "genero_id", ErroGenero);
    var e3 := AdicionarSe(e2, estadoCivil, "estado_civil_id", ErroEstadoCivil);
    var e4 := AdicionarSe(e3, tipoCliente, "tipo_cliente_id", ErroTipoCliente);
    AdicionarSe(e4, email, "email", ErroEmail)
  }

  /** The map `validateForm` builds one check at a time is the one `MapaErros` describes. */
  lemma MapaErrosPassos(nome: bool, genero: bool, estadoCivil: bool, tipoCliente: bool, email: bool)
    ensures AdicionarSe(AdicionarSe(AdicionarSe(AdicionarSe(AdicionarSe(map[], nome, "nome", ErroNome),
      genero, "genero_id", ErroGenero), estadoCivil, "estado_civil_id", ErroEstadoCivil),
      tipoCliente, "tipo_cliente_id", ErroTipoCliente), email, "email", ErroEmail)
      == MapaErros(nome, genero, estadoCivil, tipoCliente, email)
  {
  }

  /** Each field has an entry exactly when its check failed, with that check's message, and
      no other field has one. */
  lemma MapaErrosChaves(nome: bool, genero: bool, estadoCivil: bool, tipoCliente: bool, email: bool)
    ensures var e := MapaErros(nome, genero, estadoCivil, tipoCliente, email);
      ("nome" in e <==> nome) && ("genero_id" in e <==> genero) && ("estado_civil_id" in e <==> estadoCivil)
      && ("tipo_cliente_id" in e <==> tipoCliente) && ("email" in e <==> email)
      && e.Keys <= {"nome", "genero_id", "estado_civil_id", "tipo_cliente_id", "email"}
      && ("nome" in e ==> e["nome"] == ErroNome) && ("genero_id" in e ==> e["genero_id"] == ErroGenero)
      && ("estado_civil_id" in e ==> e["estado_civil_id"] == ErroEstadoCivil)
      && ("tipo_cliente_id" in e ==> e["tipo_cliente_id"] == ErroTipoCliente)
      && ("email" in e ==> e["email"] == ErroEmail)
  {
    ChavesDistintas();
  }

  /** The errors `validateForm` collects. */
  function Erros(form: map<string, Valor>): map<string, string>
    requires BemFormado(form)
  {
    MapaErros(Trim(form["nome"].s) == "", !Verdadeiro(form, "genero_id"), !Verdadeiro(form, "estado_civil_id"),
              !Verdadeiro(form, "tipo_cliente_id"), EmailRuim(form["email"].s))
  }

  /** The five field names are different strings. */
  lemma ChavesDistintas()
    ensures "nome" != "genero_id" && "nome" != "estado_civil_id" && "nome" != "tipo_cliente_id" && "nome" != "email"
    ensures "genero_id" != "estado_civil_id" && "genero_id" != "tipo_cliente_id" && "genero_id" != "email"
    ensures "estado_civil_id" != "tipo_cliente_id" && "estado_civil_id" != "email" && "tipo_cliente_id" != "email"
  {
    assert "estado_civil_id"[0] != "tipo_cliente_id"[0];
  }

  /** A blank name, an empty gender, marital status or client type, and a non-empty e-mail
      that does not match the pattern each give that field's error, and nothing else does. */
  lemma ErrosPorCampo(form: map<string, Valor>)
    requires BemFormado(form)
    ensures var e := Erros(form);
      ("nome" in e <==> Trim(form["nome"].s) == "")
      && ("genero_id" in e <==> !Verdadeiro(form, "genero_id"))
      && ("estado_civil_id" in e <==> !Verdadeiro(form, "estado_civil_id"))
      && ("tipo_cliente_id" in e <==> !Verdadeiro(form, "tipo_cliente_id"))
      && ("email" in e <==> form["email"].s != "" && !CasaPadraoEmail(form["email"].s))
      && e.Keys <= {"nome", "genero_id", "estado_civil_id", "tipo_cliente_id", "email"}
      && ("nome" in e ==> e["nome"] == ErroNome)
      && ("email" in e ==> e["email"] == ErroEmail)
  {
    MapaErrosChaves(Trim(form["nome"].s) == "", !Verdadeiro(form, "genero_id"), !Verdadeiro(form, "estado_civil_id"),
                    !Verdadeiro(form, "tipo_cliente_id"), EmailRuim(form["email"].s));
    EmailValidoIff(form["email"].s);
  }

  /** The form is valid exactly when the name has a non-space character, the three selects
      are chosen, and the e-mail is empty or matches the pattern. */
  lemma ValidoIff(form: map<string, Valor>)
    requires BemFormado(form)
    ensures |Erros(form)| == 0 <==>
      !AllSpace(form["nome"].s)
      && Verdadeiro(form, "genero_id") && Verdadeiro(form, "estado_civil_id") && Verdadeiro(form, "tipo_cliente_id")
      && (form["email"].s == "" || CasaPadraoEmail(form["email"].s))
  {
    TrimBlankIff(form["nome"].s);
    ErrosPorCampo(form);
    var e := Erros(form);
    if |e| == 0 {
      assert e.Keys == {};
    } else {
      var k :| k in e.Keys;
    }
  }

  /** `setErrors(newErrors)`: the collected messages as the error state holds them. */
  function Mostrados(e: map<string, string>): (r: map<string, Option<string>>)
    ensures r.Keys == e.Keys && forall k :: k in e ==> r[k] == Some(e[k])
  {
    map k | k in e :: Some(e[k])
  }

  /** An error message is shown for a field when it holds a non-empty message. */
  predicate ErroAtivo(errors: map<string, Option<string>>, campo: string) {
    campo in errors && errors[campo].Some? && errors[campo].value != ""
  }

  /** The error map after a change to `campo`: that field's error, if shown, becomes `null`;
      every other entry stays. */
  function LimparErro(errors: map<string, Option<string>>, campo: string): (r: map<string, Option<string>>)
    ensures !ErroAtivo(r, campo)
    ensures forall k :: k != campo ==> (k in r <==> k in errors) && (k in errors ==> r[k] == errors[k])
    ensures campo in r <==> campo in errors
    ensures !ErroAtivo(errors, campo) ==> r == errors
  {
    if ErroAtivo(errors, campo) then errors[campo := None] else errors
  }

  // Spouse section and initials

  datatype Opcao = Opcao(id: int, nome: string)

  const EstadosCivis := [
    Opcao(1, "Solteiro(a)"), Opcao(2, "Casado(a)"), Opcao(3, "Divorciado(a)"),
    Opcao(4, "Viúvo(a)"), Opcao(5, "União Estável")]

  predicate ComConjuge(o: Opcao) {
    o.nome == "Casado(a)" || o.nome == "União Estável"
  }

  predicate Escolhido(form: map<string, Valor>, o: Opcao) {
    "estado_civil_id" in form && form["estado_civil_id"] == Numero(o.id)
  }

  /** The spouse fields are shown exactly for the married and stable-union statuses. */
  function MostraConjuge(form: map<string, Valor>): (b: bool)
    ensures b <==> exists o :: o in EstadosCivis && ComConjuge(o) && Escolhido(form, o)
  {
    var b := "estado_civil_id" in form && (form["estado_civil_id"] == Numero(2) || form["estado_civil_id"] == Numero(5));
    assert EstadosCivis[1] in EstadosCivis && EstadosCivis[4] in EstadosCivis;
    b
  }

  /** This screen's `getInitials`: its guard for an empty name gives what the list's version
      already gives. */
  function Iniciais(nome: string): (r: string)
    ensures r == ClientesList.Iniciais(nome)
  {
    if nome == "" then
      assert Split("", ' ') == [""];
      assert ClientesList.Letras("") == "";
      ""
    else ClientesList.Iniciais(nome)
  }

  // The screen's state

  class Formulario {
    var formData: map<string, Valor>
    var errors: map<string, Option<string>>
    var loading: bool

    ghost predicate Valid()
      reads this
    {
      BemFormado(formData)
    }

    constructor ()
      ensures Valid() && formData == FormInicial && errors == map[] && !loading
    {
      formData := FormInicial;
      errors := map[];
      loading := false;
    }

    /** `handleChange`: store the value in the named field and hide that field's error. The
        name and e-mail inputs are text fields. */
    method HandleChange(campo: string, valor: Valor)
      requires Valid()
      requires (campo == "nome" || campo == "email") ==> valor.Texto?
      modifies this
      ensures Valid()
      ensures formData == old(formData)[campo := valor]
      ensures errors == LimparErro(old(errors), campo)
      ensures loading == old(loading)
    {
      formData := formData[campo := valor];
      errors := LimparErro(errors, campo);
    }

    /** `handleRemovePhoto`. */
    method RemoverFoto()
      requires Valid()
      modifies this
      ensures Valid()
      ensures formData == old(formData)["foto" := Texto("")]
      ensures errors == LimparErro(old(errors), "foto")
      ensures loading == old(loading)
    {
      HandleChange("foto", Texto(""));
    }

    /** `validateForm`: collect the errors field by field, show them, and report whether there
        were none. */
    method ValidateForm() returns (valido: bool)
      requires Valid()
      modifies this
      ensures Valid() && formData == old(formData) && loading == old(loading)
      ensures errors == Mostrados(Erros(formData))
      ensures valido <==> |Erros(formData)| == 0
    {
      var semNome := Trim(formData["nome"].s) == "";
      var semGenero := !Verdadeiro(formData, "genero_id");
      var semEstadoCivil := !Verdadeiro(formData, "estado_civil_id");
      var semTipo := !Verdadeiro(formData, "tipo_cliente_id");
      var emailRuim := EmailRuim(formData["email"].s);
      var novos: map<string, string> := map[];
      novos := AdicionarSe(novos, semNome, "nome", ErroNome);
      novos := AdicionarSe(novos, semGenero, "genero_id", ErroGenero);
      novos := AdicionarSe(novos, semEstadoCivil, "estado_civil_id", ErroEstadoCivil);
      novos := AdicionarSe(novos, semTipo, "tipo_cliente_id", ErroTipoCliente);
      novos := AdicionarSe(novos, emailRuim, "email", ErroEmail);
      MapaErrosPassos(semNome, semGenero, semEstadoCivil, semTipo, emailRuim);
      errors := Mostrados(novos);
      valido := |novos| == 0;
    }

    /** `handleSubmit`: an invalid form only shows its errors; a valid one is sent with the
        logged-in user's id added. */
    method HandleSubmit(idUsuario: int) returns (enviado: Option<map<string, Valor>>)
      requires Valid()
      modifies this
      ensures Valid() && formData == old(formData) && !loading
      ensures errors == Mostrados(Erros(formData))
      ensures enviado.Some? <==> |Erros(formData)| == 0
      ensures enviado.Some? ==> enviado.value == formData["id_usuario" := Numero(idUsuario)]
    {
      var valido := ValidateForm();
      enviado := None;
      if valido {
        loading := true;
        enviado := Some(formData["id_usuario" := Numero(idUsuario)]);
      }
      loading := false;
    }
  }
}
