/** The client list screen (`ClientesList`): the search box, the status chip, the avatar
    initials and the delete confirmation dialog. */
module ClientesList {
  import opened Text
  import opened Lists

  /** The fields of a client that the list reads. */
  datatype Cliente = Cliente(id: int, nome: string, email: string, celular: string, ativo: bool)

  // Search

  /** The search test: the term occurs in the name or the e-mail ignoring case, or in the
      phone number as typed. */
  predicate Corresponde(termo: string, c: Cliente) {
    ContainsIgnoringCase(c.nome, termo) || ContainsIgnoringCase(c.email, termo) || Contains(c.celular, termo)
  }

  function CorrespondeA(termo: string): Cliente -> bool {
    c => Corresponde(termo, c)
  }

  /** `filteredClientes`. */
  function Filtrados(clientes: seq<Cliente>, termo: string): (r: seq<Cliente>)
    ensures IsSubseq(r, clientes)
  {
    Filter(clientes, CorrespondeA(termo))
  }

  /** A client is listed exactly when it is stored and the term stands somewhere in its
      lower-cased name, its lower-cased e-mail, or its phone number. */
  lemma ClienteListado(clientes: seq<Cliente>, termo: string, c: Cliente)
    ensures c in Filtrados(clientes, termo) <==>
      c in clientes
      && ((exists i :: OccursAt(Lower(c.nome), Lower(termo), i))
          || (exists i :: OccursAt(Lower(c.email), Lower(termo), i))
          || (exists i :: OccursAt(c.celular, termo, i)))
  {
    ContainsIff(Lower(c.nome), Lower(termo));
    ContainsIff(Lower(c.email), Lower(termo));
    ContainsIff(c.celular, termo);
  }

  /** The empty search lists every client, in order. */
  lemma BuscaVaziaMantemTodos(clientes: seq<Cliente>)
    ensures Filtrados(clientes, "") == clientes
  {
    forall c | c in clientes ensures Corresponde("", c) {
      ContainsEmpty(Lower(c.nome));
    }
    FilterKeepsAll(clientes, CorrespondeA(""));
  }

  // Status chip

  /** `getStatusColor`. */
  function CorStatus(ativo: bool): (cor: string)
    ensures cor == "success" <==> ativo
    ensures cor == "error" <==> !ativo
  {
    if ativo then "success" else "error"
  }

  /** `getStatusText`. */
  function TextoStatus(ativo: bool): (texto: string)
    ensures texto == "Ativo" <==> ativo
    ensures texto == "Inativo" <==> !ativo
  {
    if ativo then "Ativo" else "Inativo"
  }

  // Initials

  /** `n[0]` of one word as `join` renders it: an empty word gives `undefined`, which joins as
      the empty string. */
  function Inicial(palavra: string): (r: string)
    ensures |r| <= 1
  {
    if palavra == "" then "" else [palavra[0]]
  }

  /** `nome.split(' ').map(n => n[0]).join('')`. */
  function Letras(nome: string): string {
    var palavras := Split(nome, ' ');
    Join(seq(|palavras|, i requires 0 <= i < |palavras| => Inicial(palavras[i])), "")
  }

  /** `getInitials`: the letters, cut to two and upper-cased. */
  function Iniciais(nome: string): (r: string)
    ensures |r| <= 2
  {
    Upper(Prefix(Letras(nome), 2))
  }

  predicate NaoVazia(palavra: string) {
    palavra != ""
  }

  function PalavraNaoVazia(): string -> bool {
    w => NaoVazia(w)
  }

  /** The non-empty words, in order. */
  function Palavras(palavras: seq<string>): (r: seq<string>)
    ensures forall k :: 0 <= k < |r| ==> r[k] != ""
  {
    var r := Filter(palavras, PalavraNaoVazia());
    assert forall k :: 0 <= k < |r| ==> r[k] in r;
    r
  }

  /** The first letter of every non-empty word, in order. */
  function Cabecas(palavras: seq<string>): (r: string)
    ensures |r| == |Palavras(palavras)|
    ensures forall k :: 0 <= k < |r| ==> r[k] == Palavras(palavras)[k][0]
  {
    if palavras == [] then ""
    else
      var r := Inicial(palavras[0]) + Cabecas(palavras[1..]);
      if palavras[0] == "" then r
      else
        assert Palavras(palavras) == [palavras[0]] + Palavras(palavras[1..]);
        r
  }

  /** Joining the mapped words with '' keeps one letter per non-empty word. */
  lemma {:induction false} JoinIniciais(palavras: seq<string>)
    ensures Join(seq(|palavras|, i requires 0 <= i < |palavras| => Inicial(palavras[i])), "") == Cabecas(palavras)
  {
    var ms := seq(|palavras|, i requires 0 <= i < |palavras| => Inicial(palavras[i]));
    if |palavras| > 1 {
      JoinIniciais(palavras[1..]);
      assert ms[1..] == seq(|palavras[1..]|, i requires 0 <= i < |palavras[1..]| => Inicial(palavras[1..][i]));
    } else if |palavras| == 1 {
      assert palavras[1..] == [];
    }
  }

  /** The initials are the first letters of the first two non-empty space-separated words,
      upper-cased; with fewer such words there are fewer letters. */
  lemma IniciaisDasPalavras(nome: string)
    ensures var ws := Palavras(Split(nome, ' '));
      |Iniciais(nome)| == (if |ws| < 2 then |ws| else 2)
      && forall k :: 0 <= k < |Iniciais(nome)| ==> Iniciais(nome)[k] == UpperChar(ws[k][0])
  {
    JoinIniciais(Split(nome, ' '));
  }

  // Delete dialog

  /** The screen's state: the (mock) client list, the search term and the delete dialog. */
  class TelaClientes {
    var clientes: seq<Cliente>
    var searchTerm: string
    var dialogoAberto: bool
    var clienteExcluir: Option<Cliente>

    constructor (clientesIniciais: seq<Cliente>)
      ensures clientes == clientesIniciais && searchTerm == ""
      ensures !dialogoAberto && clienteExcluir == None
    {
      clientes := clientesIniciais;
      searchTerm := "";
      dialogoAberto := false;
      clienteExcluir := None;
    }

    /** Typing in the search box. */
    method SetSearchTerm(termo: string)
      modifies this
      ensures searchTerm == termo && clientes == old(clientes)
      ensures dialogoAberto == old(dialogoAberto) && clienteExcluir == old(clienteExcluir)
    {
      searchTerm := termo;
    }

    /** `handleDelete`: open the confirmation for one client. */
    method HandleDelete(c: Cliente)
      modifies this
      ensures dialogoAberto && clienteExcluir == Some(c)
      ensures clientes == old(clientes) && searchTerm == old(searchTerm)
    {
      dialogoAberto := true;
      clienteExcluir := Some(c);
    }

    /** `confirmDelete`: the dialog closes and no client is removed. */
    method ConfirmDelete()
      modifies this
      ensures !dialogoAberto && clienteExcluir == None
      ensures clientes == old(clientes) && searchTerm == old(searchTerm)
    {
      dialogoAberto := false;
      clienteExcluir := None;
    }
  }
}
