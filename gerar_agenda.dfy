/** The monthly schedule generator: for a chosen month, one appointment for every active
    client on every day of the month that falls on the client's weekday, at the client's usual
    time, sorted by date and time. */
module GerarAgenda {
  import opened Text
  import opened Lists
  import opened Sorting
  import opened Calendar

  datatype Cliente = Cliente(id: int, nome: string, dia_semana: string, hora_atendimento: string,
                             duracao: int, ativo: bool)

  datatype Data = Data(ano: int, mes: int, dia: int)

  /** One element of the list `getDiasDoMes` builds. */
  datatype Dia = Dia(data: Data, dia: int, diaSemana: Option<string>, dataFormatada: string)

  /** One generated appointment. */
  datatype Agendamento = Agendamento(id: string, cliente_id: int, cliente_nome: string, data: string,
                                     dia_semana: Option<string>, hora: string, duracao: int,
                                     status: string)

  function ClienteId(c: Cliente): int { c.id }
  function AgendamentoId(a: Agendamento): string { a.id }
  function DiaNumero(d: Dia): int { d.dia }

  // Weekday names

  /** The weekday-name table, in the order its keys are enumerated. */
  const DiasSemana: seq<(string, int)> := [
    ("Segunda-feira", 1), ("Terça-feira", 2), ("Quarta-feira", 3), ("Quinta-feira", 4),
    ("Sexta-feira", 5), ("Sábado", 6), ("Domingo", 0)]

  /** `Object.keys(t).find(key => t[key] === n)`: the first key whose number is `n`. */
  function ChaveDoNumero(t: seq<(string, int)>, n: int): Option<string> {
    if t == [] then None
    else if t[0].1 == n then Some(t[0].0)
    else ChaveDoNumero(t[1..], n)
  }

  function NomeDiaSemana(n: int): Option<string> {
    ChaveDoNumero(DiasSemana, n)
  }

  /** The lookup inverts the table: `n` is named `k` exactly when the table pairs them, and
      exactly the weekday numbers 0..6 have a name. */
  lemma NomeDiaSemanaInverse(n: int, k: string)
    ensures NomeDiaSemana(n) == Some(k) <==> (k, n) in DiasSemana
    ensures NomeDiaSemana(n).Some? <==> 0 <= n < 7
  {
    ChaveDoNumeroInverse(DiasSemana, n, k);
    if 0 <= n < 7 {
      var i := if n == 0 then 6 else n - 1;
      assert DiasSemana[i].1 == n;
    }
  }

  lemma {:induction false} ChaveDoNumeroInverse(t: seq<(string, int)>, n: int, k: string)
    requires forall i, j :: 0 <= i < j < |t| ==> t[i].1 != t[j].1
    ensures ChaveDoNumero(t, n) == Some(k) <==> (k, n) in t
    ensures ChaveDoNumero(t, n).Some? <==> exists i :: 0 <= i < |t| && t[i].1 == n
  {
    if t != [] {
      ChaveDoNumeroInverse(t[1..], n, k);
      assert forall i :: 1 <= i < |t| ==> t[i] == t[1..][i - 1];
      assert forall e :: e in t <==> e == t[0] || e in t[1..];
    }
  }

  /** Different weekday numbers have different names. */
  lemma NomeDiaSemanaInjective(a: int, b: int)
    requires NomeDiaSemana(a).Some? && NomeDiaSemana(a) == NomeDiaSemana(b)
    ensures a == b
  {
    var k := NomeDiaSemana(a).value;
    NomeDiaSemanaInverse(a, k);
    NomeDiaSemanaInverse(b, k);
    NomesDistintos();
  }

  lemma NomesDistintos()
    ensures forall i, j :: 0 <= i < j < |DiasSemana| ==> DiasSemana[i].0 != DiasSemana[j].0
  {
  }

  // Dates as text

  /** A number below 100 as two digits. */
  function Pad2(n: nat): (s: string)
    requires n < 100
    ensures |s| == 2 && AllDigits(s) && ParseNat(s) == n
  {
    var s := [DigitChar(n / 10), DigitChar(n % 10)];
    assert s[..1] == [DigitChar(n / 10)] && s[..1][..0] == [];
    assert ParseNat(s[..1]) == n / 10;
    assert n == (n / 10) * 10 + n % 10;
    s
  }

  /** A year below 10000 as four digits. */
  function Year4(y: nat): (s: string)
    requires y < 10000
    ensures |s| == 4 && AllDigits(s) && ParseNat(s) == y
  {
    var a := y / 10;
    var b := a / 10;
    var c := b / 10;
    var s := [DigitChar(c), DigitChar(b % 10), DigitChar(a % 10), DigitChar(y % 10)];
    var s1, s2, s3 := [DigitChar(c)], [DigitChar(c), DigitChar(b % 10)], s[..3];
    assert s1[..0] == [] && s2[..1] == s1 && s3[..2] == s2;
    assert ParseNat(s1) == c;
    assert ParseNat(s2) == b by { assert b == c * 10 + b % 10; }
    assert ParseNat(s3) == a by { assert a == b * 10 + a % 10; }
    assert y == a * 10 + y % 10;
    s
  }

  /** `toLocaleDateString('pt-BR')`: DD/MM/YYYY. */
  function DataFormatada(ano: int, mes: int, dia: int): string
    requires 0 <= ano < 10000 && 0 <= mes < 100 && 0 <= dia < 100
  {
    Pad2(dia) + "/" + Pad2(mes) + "/" + Year4(ano)
  }

  // The days of a month

  /** The choices the month and year selectors offer. */
  predicate MesValido(mes: int, ano: int) {
    1 <= mes <= 12 && 1000 <= ano <= 9999
  }

  function DiaDoMes(mes: int, ano: int, dia: int): Dia
    requires MesValido(mes, ano) && 1 <= dia <= 31
  {
    Dia(Data(ano, mes, dia), dia, NomeDiaSemana(DayOfWeek(ano, mes, dia)), DataFormatada(ano, mes, dia))
  }

  /** The list `getDiasDoMes(mes, ano)` returns. */
  function DiasDoMes(mes: int, ano: int): (r: seq<Dia>)
    requires MesValido(mes, ano)
    ensures |r| == DaysInMonth(mes, ano)
  {
    seq(DaysInMonth(mes, ano), i requires 0 <= i < DaysInMonth(mes, ano) => DiaDoMes(mes, ano, i + 1))
  }

  /** Days 1 to the month's last day, one entry each, every one with its weekday name, and
      consecutive entries on consecutive weekdays. */
  lemma DiasDoMesShape(mes: int, ano: int)
    requires MesValido(mes, ano)
    ensures var r := DiasDoMes(mes, ano);
      |r| == DaysInMonth(mes, ano) &&
      (forall i :: 0 <= i < |r| ==> r[i].dia == i + 1 && r[i].diaSemana.Some?) &&
      (forall i :: 0 <= i < |r| - 1 ==>
        DayOfWeek(ano, mes, r[i + 1].dia) == (DayOfWeek(ano, mes, r[i].dia) + 1) % 7)
  {
    var r := DiasDoMes(mes, ano);
    forall i | 0 <= i < |r| ensures r[i].dia == i + 1 && r[i].diaSemana.Some? {
      DiaDoMesNamed(mes, ano, i + 1);
    }
    forall i | 0 <= i < |r| - 1
      ensures DayOfWeek(ano, mes, r[i + 1].dia) == (DayOfWeek(ano, mes, r[i].dia) + 1) % 7
    {
      NextDayOfWeek(ano, mes, i + 1);
    }
  }

  lemma DiaDoMesNamed(mes: int, ano: int, dia: int)
    requires MesValido(mes, ano) && 1 <= dia <= 31
    ensures DiaDoMes(mes, ano, dia).dia == dia && DiaDoMes(mes, ano, dia).diaSemana.Some?
  {
    NomeDiaSemanaInverse(DayOfWeek(ano, mes, dia), "");
  }

  /** `getDiasDoMes`. */
  method GetDiasDoMes(mes: int, ano: int) returns (dias: seq<Dia>)
    requires MesValido(mes, ano)
    ensures dias == DiasDoMes(mes, ano)
  {
    var ultimoDia := DaysInMonth(mes, ano);
    dias := [];
    var dia := 1;
    while dia <= ultimoDia
      invariant 1 <= dia <= ultimoDia + 1
      invariant dias == DiasDoMes(mes, ano)[..dia - 1]
    {
      var diaSemana := DayOfWeek(ano, mes, dia);
      var nomeDiaSemana := NomeDiaSemana(diaSemana);
      dias := dias + [Dia(Data(ano, mes, dia), dia, nomeDiaSemana, DataFormatada(ano, mes, dia))];
      dia := dia + 1;
    }
  }

  /** Filtering consecutive days by a test that holds exactly on weekday `w` keeps as many
      days as fall on `w`. */
  lemma {:induction false} FilterHits(dias: seq<Dia>, p: Dia -> bool, first: int, w: int, j: nat)
    requires j <= |dias|
    requires forall i :: 0 <= i < |dias| ==> (p(dias[i]) <==> Hit(first + i, w) == 1)
    ensures |Filter(dias[..j], p)| == CountWeekday(first, j, w)
    decreases j
  {
    if j > 0 {
      FilterHits(dias, p, first, w, j - 1);
      assert dias[..j] == dias[..j - 1] + [dias[j - 1]];
      FilterConcat(dias[..j - 1], [dias[j - 1]], p);
    }
  }

  /** Day `j` of the month has the client's weekday name exactly when it falls on weekday
      `w`, the number the table gives that name. */
  lemma DiaTemSemana(c: Cliente, mes: int, ano: int, w: int, j: int)
    requires MesValido(mes, ano) && (c.dia_semana, w) in DiasSemana && 1 <= j <= DaysInMonth(mes, ano)
    ensures TemDiaSemana(c)(DiasDoMes(mes, ano)[j - 1]) <==> Hit(DayNumber(ano, mes, 1) + j - 1, w) == 1
  {
    var dow := DayOfWeek(ano, mes, j);
    assert DiasDoMes(mes, ano)[j - 1].diaSemana == NomeDiaSemana(dow);
    NomeDiaSemanaInverse(w, c.dia_semana);
    NomeDiaSemanaInverse(dow, c.dia_semana);
    if NomeDiaSemana(dow) == Some(c.dia_semana) {
      NomeDiaSemanaInjective(w, dow);
    }
    assert dow == (DayNumber(ano, mes, 1) + j - 1) % 7;
  }

  /** A client whose weekday is one of the table's names is due on as many days of the
      month as the month has of that weekday, which is four or five; any other weekday text
      matches no day. */
  lemma DiasDoClienteCount(c: Cliente, mes: int, ano: int)
    requires MesValido(mes, ano)
    ensures forall w :: (c.dia_semana, w) in DiasSemana ==>
      |DiasDoCliente(c, DiasDoMes(mes, ano))| == CountWeekday(DayNumber(ano, mes, 1), DaysInMonth(mes, ano), w)
    ensures (exists w :: (c.dia_semana, w) in DiasSemana) ==> 4 <= |DiasDoCliente(c, DiasDoMes(mes, ano))| <= 5
    ensures (forall w :: (c.dia_semana, w) !in DiasSemana) ==> DiasDoCliente(c, DiasDoMes(mes, ano)) == []
  {
    forall w | (c.dia_semana, w) in DiasSemana
      ensures |DiasDoCliente(c, DiasDoMes(mes, ano))| == CountWeekday(DayNumber(ano, mes, 1), DaysInMonth(mes, ano), w)
      ensures 4 <= |DiasDoCliente(c, DiasDoMes(mes, ano))| <= 5
    {
      DiasDoClienteNamed(c, mes, ano, w);
    }
    if forall w :: (c.dia_semana, w) !in DiasSemana {
      DiasDoClienteUnnamed(c, mes, ano);
    }
  }

  lemma DiasDoClienteNamed(c: Cliente, mes: int, ano: int, w: int)
    requires MesValido(mes, ano) && (c.dia_semana, w) in DiasSemana
    ensures |DiasDoCliente(c, DiasDoMes(mes, ano))| == CountWeekday(DayNumber(ano, mes, 1), DaysInMonth(mes, ano), w)
    ensures 4 <= |DiasDoCliente(c, DiasDoMes(mes, ano))| <= 5
  {
    var dias := DiasDoMes(mes, ano);
    var first := DayNumber(ano, mes, 1);
    forall i | 0 <= i < |dias| ensures TemDiaSemana(c)(dias[i]) <==> Hit(first + i, w) == 1 {
      DiaTemSemana(c, mes, ano, w, i + 1);
    }
    FilterHits(dias, TemDiaSemana(c), first, w, |dias|);
    assert dias[..|dias|] == dias;
    NomeDiaSemanaInverse(w, c.dia_semana);
    WeekdaysInMonth(first, |dias|, w);
  }

  lemma DiasDoClienteUnnamed(c: Cliente, mes: int, ano: int)
    requires MesValido(mes, ano) && forall w :: (c.dia_semana, w) !in DiasSemana
    ensures DiasDoCliente(c, DiasDoMes(mes, ano)) == []
  {
    var dias := DiasDoMes(mes, ano);
    forall d | d in dias ensures !TemDiaSemana(c)(d) {
      var dia := DiaDaLista(mes, ano, d);
      NomeDiaSemanaInverse(DayOfWeek(ano, mes, dia), c.dia_semana);
    }
    FilterNone(dias, TemDiaSemana(c));
  }

  // Building the schedule

  predicate EstaAtivo(c: Cliente) { c.ativo }

  function Ativos(clientes: seq<Cliente>): seq<Cliente> {
    Filter(clientes, EstaAtivo)
  }

  /** `dia => dia.diaSemana === cliente.dia_semana`. */
  function TemDiaSemana(c: Cliente): Dia -> bool {
    (d: Dia) => d.diaSemana == Some(c.dia_semana)
  }

  function DiasDoCliente(c: Cliente, dias: seq<Dia>): seq<Dia> {
    Filter(dias, TemDiaSemana(c))
  }

  /** The appointment id: the client id and the day of the month, joined by '-'. */
  function IdAgendamento(clienteId: int, dia: int): string {
    IntToString(clienteId) + "-" + IntToString(dia)
  }

  function NovoAgendamento(c: Cliente, d: Dia): Agendamento {
    Agendamento(IdAgendamento(c.id, d.dia), c.id, c.nome, d.dataFormatada, d.diaSemana,
                c.hora_atendimento, c.duracao, "Agendado")
  }

  /** One client's appointments, one per day of `ds`. */
  function AgendamentosDoCliente(c: Cliente, ds: seq<Dia>): (r: seq<Agendamento>)
    ensures |r| == |ds|
  {
    seq(|ds|, k requires 0 <= k < |ds| => NovoAgendamento(c, ds[k]))
  }

  /** The unsorted list: the clients in order, each with its days in order. */
  function Agenda(ativos: seq<Cliente>, dias: seq<Dia>): seq<Agendamento>
    decreases |ativos|
  {
    if ativos == [] then []
    else
      var c := ativos[|ativos| - 1];
      Agenda(ativos[..|ativos| - 1], dias) + AgendamentosDoCliente(c, DiasDoCliente(c, dias))
  }

  /** `a.data.split('/').reverse().join('-') + 'T' + a.hora`: the text the sort turns into a
      `Date`. */
  function ChaveOrdenacao(a: Agendamento): string {
    Join(Reverse(Split(a.data, '/')), "-") + "T" + a.hora
  }

  /** What `gerarAgenda` stores as the generated schedule. */
  function AgendaDoMes(clientes: seq<Cliente>, mes: int, ano: int): seq<Agendamento>
    requires MesValido(mes, ano)
  {
    SortByKey(Agenda(Ativos(clientes), DiasDoMes(mes, ano)), ChaveOrdenacao)
  }

  /** An appointment is in the unsorted list exactly when it is made from one of the clients
      and one of the days that has the client's weekday. */
  lemma {:induction false} AgendaMembers(ativos: seq<Cliente>, dias: seq<Dia>, e: Agendamento)
    ensures e in Agenda(ativos, dias) <==>
      exists c, d :: c in ativos && d in dias && d.diaSemana == Some(c.dia_semana) && e == NovoAgendamento(c, d)
    decreases |ativos|
  {
    if ativos != [] {
      var n := |ativos|;
      var c := ativos[n - 1];
      var init := ativos[..n - 1];
      var block := AgendamentosDoCliente(c, DiasDoCliente(c, dias));
      assert ativos == init + [c];
      assert forall x :: x in ativos <==> x == c || x in init;
      assert Agenda(ativos, dias) == Agenda(init, dias) + block;
      assert e in Agenda(ativos, dias) <==> e in Agenda(init, dias) || e in block;
      AgendaMembers(init, dias, e);
      BlockMembers(c, dias, e);
      if e in Agenda(ativos, dias) {
        if e in Agenda(init, dias) {
          var c', d :| c' in init && d in dias && d.diaSemana == Some(c'.dia_semana) && e == NovoAgendamento(c', d);
          assert c' in ativos;
        } else {
          var d :| d in dias && d.diaSemana == Some(c.dia_semana) && e == NovoAgendamento(c, d);
          assert c in ativos;
        }
      }
      forall c', d | c' in ativos && d in dias && d.diaSemana == Some(c'.dia_semana) && e == NovoAgendamento(c', d)
        ensures e in Agenda(ativos, dias)
      {
        if c' != c {
          assert c' in init;
        }
      }
    }
  }

  lemma BlockMembers(c: Cliente, dias: seq<Dia>, e: Agendamento)
    ensures e in AgendamentosDoCliente(c, DiasDoCliente(c, dias)) <==>
      exists d :: d in dias && d.diaSemana == Some(c.dia_semana) && e == NovoAgendamento(c, d)
  {
    var ds := DiasDoCliente(c, dias);
    var block := AgendamentosDoCliente(c, ds);
    if e in block {
      var k :| 0 <= k < |block| && block[k] == e;
      assert ds[k] in ds;
    }
    forall d | d in dias && d.diaSemana == Some(c.dia_semana) && e == NovoAgendamento(c, d) ensures e in block {
      assert d in ds;
      var k :| 0 <= k < |ds| && ds[k] == d;
      assert block[k] == e;
    }
  }

  /** An appointment is in the generated schedule exactly when it belongs to an active
      client and a day of the month whose weekday name is the client's. */
  lemma AgendaDoMesMembers(clientes: seq<Cliente>, mes: int, ano: int, e: Agendamento)
    requires MesValido(mes, ano)
    ensures e in AgendaDoMes(clientes, mes, ano) <==>
      exists c, dia :: c in clientes && c.ativo && 1 <= dia <= DaysInMonth(mes, ano) &&
        NomeDiaSemana(DayOfWeek(ano, mes, dia)) == Some(c.dia_semana) &&
        e == NovoAgendamento(c, DiaDoMes(mes, ano, dia))
  {
    var dias := DiasDoMes(mes, ano);
    SortedMembers(clientes, mes, ano, e);
    AgendaMembers(Ativos(clientes), dias, e);
    if e in Agenda(Ativos(clientes), dias) {
      var c, d :| c in Ativos(clientes) && d in dias && d.diaSemana == Some(c.dia_semana) && e == NovoAgendamento(c, d);
      var dia := MembersToDays(clientes, mes, ano, e, c, d);
    }
    forall c, dia | c in clientes && c.ativo && 1 <= dia <= DaysInMonth(mes, ano) &&
        NomeDiaSemana(DayOfWeek(ano, mes, dia)) == Some(c.dia_semana) &&
        e == NovoAgendamento(c, DiaDoMes(mes, ano, dia))
      ensures e in Agenda(Ativos(clientes), dias)
    {
      assert dias[dia - 1] in dias;
    }
  }

  lemma MembersToDays(clientes: seq<Cliente>, mes: int, ano: int, e: Agendamento, c: Cliente, d: Dia)
    returns (dia: int)
    requires MesValido(mes, ano)
    requires c in Ativos(clientes) && d in DiasDoMes(mes, ano) && d.diaSemana == Some(c.dia_semana)
    requires e == NovoAgendamento(c, d)
    ensures c in clientes && c.ativo && 1 <= dia <= DaysInMonth(mes, ano)
    ensures NomeDiaSemana(DayOfWeek(ano, mes, dia)) == Some(c.dia_semana)
    ensures e == NovoAgendamento(c, DiaDoMes(mes, ano, dia))
  {
    assert c in clientes && EstaAtivo(c);
    dia := DiaDaLista(mes, ano, d);
    assert d.diaSemana == NomeDiaSemana(DayOfWeek(ano, mes, dia));
  }

  lemma DiaDaLista(mes: int, ano: int, d: Dia) returns (dia: int)
    requires MesValido(mes, ano) && d in DiasDoMes(mes, ano)
    ensures 1 <= dia <= DaysInMonth(mes, ano) && d == DiaDoMes(mes, ano, dia)
  {
    var dias := DiasDoMes(mes, ano);
    var i :| 0 <= i < |dias| && dias[i] == d;
    dia := i + 1;
  }

  lemma SortedMembers(clientes: seq<Cliente>, mes: int, ano: int, e: Agendamento)
    requires MesValido(mes, ano)
    ensures e in AgendaDoMes(clientes, mes, ano) <==> e in Agenda(Ativos(clientes), DiasDoMes(mes, ano))
  {
    var agenda := Agenda(Ativos(clientes), DiasDoMes(mes, ano));
    SortByKeyCorrect(agenda, ChaveOrdenacao);
    assert e in AgendaDoMes(clientes, mes, ano) <==> e in multiset(AgendaDoMes(clientes, mes, ano));
  }

  /** The client and day an appointment of the schedule was made from. */
  lemma Origem(clientes: seq<Cliente>, mes: int, ano: int, e: Agendamento) returns (c: Cliente, dia: int)
    requires MesValido(mes, ano) && e in AgendaDoMes(clientes, mes, ano)
    ensures c in clientes && c.ativo && 1 <= dia <= DaysInMonth(mes, ano)
    ensures e == NovoAgendamento(c, DiaDoMes(mes, ano, dia))
  {
    AgendaDoMesMembers(clientes, mes, ano, e);
    c, dia :| c in clientes && c.ativo && 1 <= dia <= DaysInMonth(mes, ano) &&
      NomeDiaSemana(DayOfWeek(ano, mes, dia)) == Some(c.dia_semana) &&
      e == NovoAgendamento(c, DiaDoMes(mes, ano, dia));
  }

  // Distinct ids

  lemma DigitsAfterDash(x: string, y: string, u: string, v: string)
    requires AllDigits(y) && AllDigits(v)
    ensures x + "-" + y == u + "-" + v ==> |y| >= |v|
  {
    if |y| < |v| && |x| + |y| == |u| + |v| {
      var k := |x|;
      assert (x + "-" + y)[k] == '-';
      assert (u + "-" + v)[k] == v[k - |u| - 1];
    }
  }

  lemma DashJoinInjective(a: string, b: string, c: string, d: string)
    requires AllDigits(b) && AllDigits(d) && a + "-" + b == c + "-" + d
    ensures a == c && b == d
  {
    DigitsAfterDash(a, b, c, d);
    DigitsAfterDash(c, d, a, b);
    var s := a + "-" + b;
    assert b == s[|s| - |b|..];
    assert d == (c + "-" + d)[|s| - |d|..];
    assert a == s[..|a|] && c == (c + "-" + d)[..|c|];
  }

  /** Appointment ids tell apart both the client and the day. */
  lemma IdAgendamentoInjective(c1: int, d1: int, c2: int, d2: int)
    requires d1 >= 0 && d2 >= 0
    ensures IdAgendamento(c1, d1) == IdAgendamento(c2, d2) <==> c1 == c2 && d1 == d2
  {
    if IdAgendamento(c1, d1) == IdAgendamento(c2, d2) {
      DashJoinInjective(IntToString(c1), IntToString(d1), IntToString(c2), IntToString(d2));
      IntToStringInjective(c1, c2);
      IntToStringInjective(d1, d2);
    }
  }

  /** The last client of a list with unique ids shares its id with none before it. */
  lemma LastIdFresh(ativos: seq<Cliente>)
    requires UniqueIds(ativos, ClienteId) && ativos != []
    ensures UniqueIds(ativos[..|ativos| - 1], ClienteId)
    ensures forall x :: x in ativos[..|ativos| - 1] ==> x.id != ativos[|ativos| - 1].id
  {
    var n := |ativos|;
    UniqueIdsPrefix(ativos, n - 1, ClienteId);
    forall x | x in ativos[..n - 1] ensures x.id != ativos[n - 1].id {
      var i :| 0 <= i < n - 1 && ativos[..n - 1][i] == x;
      assert ativos[i] == x;
    }
  }

  lemma BlockIdsUnique(c: Cliente, ds: seq<Dia>)
    requires UniqueIds(ds, DiaNumero) && forall d :: d in ds ==> d.dia >= 0
    ensures UniqueIds(AgendamentosDoCliente(c, ds), AgendamentoId)
  {
    var block := AgendamentosDoCliente(c, ds);
    forall i, j | 0 <= i < j < |block| ensures AgendamentoId(block[i]) != AgendamentoId(block[j]) {
      assert ds[i] in ds && ds[j] in ds;
      IdAgendamentoInjective(c.id, ds[i].dia, c.id, ds[j].dia);
    }
  }

  /** Every appointment of `Agenda(ativos, dias)` belongs to one of `ativos`. */
  lemma AgendaClienteIds(ativos: seq<Cliente>, dias: seq<Dia>, x: Agendamento)
    requires x in Agenda(ativos, dias)
    ensures exists c', d' :: c' in ativos && d' in dias && x == NovoAgendamento(c', d')
  {
    AgendaMembers(ativos, dias, x);
  }

  lemma CrossIdsDistinct(init: seq<Cliente>, dias: seq<Dia>, c: Cliente, x: Agendamento, y: Agendamento)
    requires forall d :: d in dias ==> d.dia >= 0
    requires forall z :: z in init ==> z.id != c.id
    requires x in Agenda(init, dias) && y in AgendamentosDoCliente(c, DiasDoCliente(c, dias))
    ensures AgendamentoId(x) != AgendamentoId(y)
  {
    AgendaClienteIds(init, dias, x);
    var c', d' :| c' in init && d' in dias && x == NovoAgendamento(c', d');
    var ds := DiasDoCliente(c, dias);
    var k :| 0 <= k < |ds| && AgendamentosDoCliente(c, ds)[k] == y;
    assert ds[k] in dias;
    IdAgendamentoInjective(c'.id, d'.dia, c.id, ds[k].dia);
  }

  lemma {:induction false} AgendaIdsUnique(ativos: seq<Cliente>, dias: seq<Dia>)
    requires UniqueIds(ativos, ClienteId)
    requires UniqueIds(dias, DiaNumero) && forall d :: d in dias ==> d.dia >= 0
    ensures UniqueIds(Agenda(ativos, dias), AgendamentoId)
    decreases |ativos|
  {
    if ativos != [] {
      var n := |ativos|;
      var c := ativos[n - 1];
      var init := ativos[..n - 1];
      LastIdFresh(ativos);
      AgendaIdsUnique(init, dias);
      FilterUniqueIds(dias, TemDiaSemana(c), DiaNumero);
      var block := AgendamentosDoCliente(c, DiasDoCliente(c, dias));
      BlockIdsUnique(c, DiasDoCliente(c, dias));
      forall x, y | x in Agenda(init, dias) && y in block ensures AgendamentoId(x) != AgendamentoId(y) {
        CrossIdsDistinct(init, dias, c, x, y);
      }
      UniqueIdsConcat(Agenda(init, dias), block, AgendamentoId);
    }
  }

  /** When no two clients share an id, no two generated appointments share an id. */
  lemma AgendaDoMesIdsUnique(clientes: seq<Cliente>, mes: int, ano: int)
    requires MesValido(mes, ano) && UniqueIds(clientes, ClienteId)
    ensures UniqueIds(AgendaDoMes(clientes, mes, ano), AgendamentoId)
  {
    var dias := DiasDoMes(mes, ano);
    FilterUniqueIds(clientes, EstaAtivo, ClienteId);
    DiasDoMesNumeros(mes, ano);
    AgendaIdsUnique(Ativos(clientes), dias);
    var agenda := Agenda(Ativos(clientes), dias);
    SortByKeyCorrect(agenda, ChaveOrdenacao);
    UniqueIdsPermutation(agenda, AgendaDoMes(clientes, mes, ano), AgendamentoId);
  }

  lemma DiasDoMesNumeros(mes: int, ano: int)
    requires MesValido(mes, ano)
    ensures UniqueIds(DiasDoMes(mes, ano), DiaNumero)
    ensures forall d :: d in DiasDoMes(mes, ano) ==> d.dia >= 1
  {
    var dias := DiasDoMes(mes, ano);
    assert forall i :: 0 <= i < |dias| ==> dias[i].dia == i + 1;
  }

  // How many sessions each client gets

  /** `a => a.cliente_id === id`. */
  function DoCliente(id: int): Agendamento -> bool {
    (a: Agendamento) => a.cliente_id == id
  }

  lemma AgendaCountAusente(ativos: seq<Cliente>, dias: seq<Dia>, id: int)
    requires forall x :: x in ativos ==> x.id != id
    ensures Count(Agenda(ativos, dias), DoCliente(id)) == 0
  {
    forall e | e in Agenda(ativos, dias) ensures !DoCliente(id)(e) {
      AgendaMembers(ativos, dias, e);
    }
    FilterNone(Agenda(ativos, dias), DoCliente(id));
  }

  /** Counting one client's appointments in one client's block. */
  lemma BlockCount(c: Cliente, ds: seq<Dia>, id: int)
    ensures Count(AgendamentosDoCliente(c, ds), DoCliente(id)) == if c.id == id then |ds| else 0
  {
    var block := AgendamentosDoCliente(c, ds);
    if c.id == id {
      forall x | x in block ensures DoCliente(id)(x) {
        var k :| 0 <= k < |block| && block[k] == x;
      }
      FilterKeepsAll(block, DoCliente(id));
    } else {
      forall x | x in block ensures !DoCliente(id)(x) {
        var k :| 0 <= k < |block| && block[k] == x;
      }
      FilterNone(block, DoCliente(id));
    }
  }

  lemma {:induction false} AgendaCount(ativos: seq<Cliente>, dias: seq<Dia>, c: Cliente)
    requires UniqueIds(ativos, ClienteId) && c in ativos
    ensures Count(Agenda(ativos, dias), DoCliente(c.id)) == |DiasDoCliente(c, dias)|
    decreases |ativos|
  {
    var init := ativos[..|ativos| - 1];
    if c == ativos[|ativos| - 1] {
      AgendaCountUltimo(ativos, dias);
    } else {
      AgendaCountAnterior(ativos, dias, c);
      AgendaCount(init, dias, c);
    }
  }

  /** The last client's appointments all come from its own block. */
  lemma AgendaCountUltimo(ativos: seq<Cliente>, dias: seq<Dia>)
    requires UniqueIds(ativos, ClienteId) && ativos != []
    ensures var c := ativos[|ativos| - 1];
      Count(Agenda(ativos, dias), DoCliente(c.id)) == |DiasDoCliente(c, dias)|
  {
    var c := ativos[|ativos| - 1];
    AgendaCountSplit(ativos, dias, c.id);
    LastIdFresh(ativos);
    AgendaCountAusente(ativos[..|ativos| - 1], dias, c.id);
    BlockCount(c, DiasDoCliente(c, dias), c.id);
  }

  /** Any other client's appointments all come from the schedule of the clients before the
      last. */
  lemma AgendaCountAnterior(ativos: seq<Cliente>, dias: seq<Dia>, c: Cliente)
    requires UniqueIds(ativos, ClienteId) && c in ativos && c != ativos[|ativos| - 1]
    ensures var init := ativos[..|ativos| - 1];
      c in init && UniqueIds(init, ClienteId) &&
      Count(Agenda(ativos, dias), DoCliente(c.id)) == Count(Agenda(init, dias), DoCliente(c.id))
  {
    var last := ativos[|ativos| - 1];
    var init := ativos[..|ativos| - 1];
    assert c in init by { assert ativos == init + [last]; }
    LastIdFresh(ativos);
    AgendaCountSplit(ativos, dias, c.id);
    BlockCountOutro(last, DiasDoCliente(last, dias), c.id);
  }

  lemma BlockCountOutro(c: Cliente, ds: seq<Dia>, id: int)
    requires c.id != id
    ensures Count(AgendamentosDoCliente(c, ds), DoCliente(id)) == 0
  {
    BlockCount(c, ds, id);
  }

  /** Counting over the schedule of a non-empty client list: the count over all but the last
      client plus the count over the last client's block. */
  lemma AgendaCountSplit(ativos: seq<Cliente>, dias: seq<Dia>, id: int)
    requires ativos != []
    ensures var last := ativos[|ativos| - 1];
      Count(Agenda(ativos, dias), DoCliente(id)) ==
        Count(Agenda(ativos[..|ativos| - 1], dias), DoCliente(id)) +
        Count(AgendamentosDoCliente(last, DiasDoCliente(last, dias)), DoCliente(id))
  {
    var last := ativos[|ativos| - 1];
    FilterConcat(Agenda(ativos[..|ativos| - 1], dias), AgendamentosDoCliente(last, DiasDoCliente(last, dias)), DoCliente(id));
  }

  /** Every active client gets one appointment per day of the month on its weekday: four or
      five when its weekday is one of the table's names, none otherwise; an inactive client
      gets none. */
  lemma SessoesDoCliente(clientes: seq<Cliente>, mes: int, ano: int, c: Cliente)
    requires MesValido(mes, ano) && UniqueIds(clientes, ClienteId) && c in clientes
    ensures var n := Count(AgendaDoMes(clientes, mes, ano), DoCliente(c.id));
      (c.ativo ==> n == |DiasDoCliente(c, DiasDoMes(mes, ano))|) &&
      (c.ativo && (exists w :: (c.dia_semana, w) in DiasSemana) ==> 4 <= n <= 5) &&
      (!c.ativo || (forall w :: (c.dia_semana, w) !in DiasSemana) ==> n == 0)
  {
    var dias := DiasDoMes(mes, ano);
    var agenda := Agenda(Ativos(clientes), dias);
    SortByKeyCorrect(agenda, ChaveOrdenacao);
    CountPermutation(agenda, AgendaDoMes(clientes, mes, ano), DoCliente(c.id));
    FilterUniqueIds(clientes, EstaAtivo, ClienteId);
    DiasDoClienteCount(c, mes, ano);
    if c.ativo {
      AgendaCount(Ativos(clientes), dias, c);
    } else {
      forall x | x in Ativos(clientes) ensures x.id != c.id {
        var i :| 0 <= i < |clientes| && clientes[i] == x;
        var j :| 0 <= j < |clientes| && clientes[j] == c;
        assert ClienteId(clientes[i]) != ClienteId(clientes[j]) || i == j;
      }
      AgendaCountAusente(Ativos(clientes), dias, c.id);
    }
  }

  /** The sum, over the clients of `ativos`, of the number of days each one is given. */
  function TotalSessoes(ativos: seq<Cliente>, dias: seq<Dia>): nat
    decreases |ativos|
  {
    if ativos == [] then 0
    else TotalSessoes(ativos[..|ativos| - 1], dias) + |DiasDoCliente(ativos[|ativos| - 1], dias)|
  }

  lemma {:induction false} AgendaTamanho(ativos: seq<Cliente>, dias: seq<Dia>)
    ensures |Agenda(ativos, dias)| == TotalSessoes(ativos, dias)
    decreases |ativos|
  {
    if ativos != [] {
      AgendaTamanho(ativos[..|ativos| - 1], dias);
    }
  }

  /** The generated schedule holds as many sessions as the active clients' days add up to. */
  lemma TotalDaAgenda(clientes: seq<Cliente>, mes: int, ano: int)
    requires MesValido(mes, ano)
    ensures |AgendaDoMes(clientes, mes, ano)| == TotalSessoes(Ativos(clientes), DiasDoMes(mes, ano))
  {
    AgendaTamanho(Ativos(clientes), DiasDoMes(mes, ano));
  }

  // Sorting by date and time

  /** A time of day `HH:MM` that `Date` accepts. */
  predicate HoraValida(h: string) {
    |h| == 5 && AllDigits(h[..2]) && h[2] == ':' && AllDigits(h[3..]) &&
    ParseNat(h[..2]) <= 23 && ParseNat(h[3..]) <= 59
  }

  function Minutos(h: string): (m: nat)
    requires HoraValida(h)
    ensures m < 1440
  {
    ParseNat(h[..2]) * 60 + ParseNat(h[3..])
  }

  /** Valid times compare as text exactly as they compare as times. */
  lemma HoraOrder(h1: string, h2: string)
    requires HoraValida(h1) && HoraValida(h2)
    ensures StrLe(h1, h2) <==> Minutos(h1) <= Minutos(h2)
  {
    assert h1 == h1[..2] + h1[2..] && h2 == h2[..2] + h2[2..];
    assert h1[2..] == [':'] + h1[3..] && h2[2..] == [':'] + h2[3..];
    StrLeConcat(h1[..2], h1[2..], h2[..2], h2[2..]);
    StrLeConcat([':'], h1[3..], [':'], h2[3..]);
    StrLeRefl([':']);
    DigitsOrder(h1[..2], h2[..2]);
    DigitsOrder(h2[..2], h1[..2]);
    DigitsOrder(h1[3..], h2[3..]);
  }

  /** `new Date(s)` for a local date-time `YYYY-MM-DDTHH:MM`: minutes since the start of
      1 January of year 1 on the local clock. None stands for the invalid date (NaN), which
      an impossible day, month or time gives; strings of other shapes are outside this
      model and also give None. */
  function Instante(s: string): Option<int> {
    if |s| == 16 && AllDigits(s[..4]) && s[4] == '-' && AllDigits(s[5..7]) && s[7] == '-' &&
       AllDigits(s[8..10]) && s[10] == 'T' && HoraValida(s[11..]) then
      var y, m, d := ParseNat(s[..4]), ParseNat(s[5..7]), ParseNat(s[8..10]);
      if 1 <= y && 1 <= m <= 12 && 1 <= d <= DaysInMonth(m, y) then
        Some(DayNumber(y, m, d) * 1440 + Minutos(s[11..]))
      else None
    else None
  }

  function ChaveIso(ano: int, mes: int, dia: int, hora: string): string
    requires 0 <= ano < 10000 && 0 <= mes < 100 && 0 <= dia < 100
  {
    Year4(ano) + "-" + Pad2(mes) + "-" + Pad2(dia) + "T" + hora
  }

  /** Splitting the DD/MM/YYYY text at '/', reversing and joining with '-' gives back the
      ISO date. */
  lemma ChaveNovoAgendamento(c: Cliente, mes: int, ano: int, dia: int)
    requires MesValido(mes, ano) && 1 <= dia <= 31
    ensures ChaveOrdenacao(NovoAgendamento(c, DiaDoMes(mes, ano, dia))) == ChaveIso(ano, mes, dia, c.hora_atendimento)
  {
    var d, m, y := Pad2(dia), Pad2(mes), Year4(ano);
    DigitsHaveNoSlash(d);
    DigitsHaveNoSlash(m);
    DigitsHaveNoSlash(y);
    SplitData(d, m, y);
    JoinData(y, m, d);
  }

  lemma DigitsHaveNoSlash(s: string)
    requires AllDigits(s)
    ensures '/' !in s
  {
  }

  lemma SplitData(d: string, m: string, y: string)
    requires '/' !in d && '/' !in m && '/' !in y
    ensures Split(d + "/" + m + "/" + y, '/') == [d, m, y]
  {
    assert d + "/" + m + "/" + y == d + ['/'] + (m + ['/'] + y);
    SplitOne(d, '/', m + "/" + y);
    SplitOne(m, '/', y);
    SplitNone(y, '/');
  }

  lemma JoinData(y: string, m: string, d: string)
    ensures Join(Reverse([d, m, y]), "-") == y + "-" + m + "-" + d
  {
    assert Reverse([d, m, y]) == [y, m, d];
    assert [y, m, d][1..] == [m, d] && [m, d][1..] == [d];
    assert Join([m, d], "-") == m + "-" + d;
    assert Join([y, m, d], "-") == y + "-" + (m + "-" + d);
    assert y + "-" + (m + "-" + d) == y + "-" + m + "-" + d;
  }

  lemma InstanteChaveIso(ano: int, mes: int, dia: int, h: string)
    requires MesValido(mes, ano) && 1 <= dia <= DaysInMonth(mes, ano) && HoraValida(h)
    ensures Instante(ChaveIso(ano, mes, dia, h)) == Some(DayNumber(ano, mes, dia) * 1440 + Minutos(h))
  {
    var s := ChaveIso(ano, mes, dia, h);
    assert s[..4] == Year4(ano);
    assert s[5..7] == Pad2(mes);
    assert s[8..10] == Pad2(dia);
    assert s[11..] == h;
  }

  /** Within one month, the keys compare as text exactly as (day, time) compare. */
  lemma ChaveIsoOrder(ano: int, mes: int, d1: int, h1: string, d2: int, h2: string)
    requires MesValido(mes, ano) && 1 <= d1 <= 31 && 1 <= d2 <= 31 && HoraValida(h1) && HoraValida(h2)
    ensures StrLe(ChaveIso(ano, mes, d1, h1), ChaveIso(ano, mes, d2, h2)) <==>
      d1 < d2 || (d1 == d2 && Minutos(h1) <= Minutos(h2))
  {
    var p := Year4(ano) + "-" + Pad2(mes) + "-";
    var r1, r2 := Pad2(d1) + ("T" + h1), Pad2(d2) + ("T" + h2);
    assert ChaveIso(ano, mes, d1, h1) == p + r1;
    assert ChaveIso(ano, mes, d2, h2) == p + r2;
    StrLeConcat(p, r1, p, r2);
    StrLeRefl(p);
    StrLeConcat(Pad2(d1), "T" + h1, Pad2(d2), "T" + h2);
    DigitsOrder(Pad2(d1), Pad2(d2));
    DigitsOrder(Pad2(d2), Pad2(d1));
    StrLeConcat("T", h1, "T", h2);
    StrLeRefl("T");
    HoraOrder(h1, h2);
  }

  /** `a` comes no later than `b` when both keys are read as dates. */
  predicate NaoDepois(a: Agendamento, b: Agendamento) {
    var ia, ib := Instante(ChaveOrdenacao(a)), Instante(ChaveOrdenacao(b));
    ia.Some? && ib.Some? && ia.value <= ib.value
  }

  /** When every active client's time is a valid HH:MM, each generated appointment's key is a
      valid date and the schedule runs forward in time, the order the comparator
      `dataA - dataB` asks for. */
  lemma AgendaDoMesCronologica(clientes: seq<Cliente>, mes: int, ano: int)
    requires MesValido(mes, ano)
    requires forall c :: c in clientes && c.ativo ==> HoraValida(c.hora_atendimento)
    ensures var r := AgendaDoMes(clientes, mes, ano);
      forall i, j :: 0 <= i < j < |r| ==> NaoDepois(r[i], r[j])
  {
    var r := AgendaDoMes(clientes, mes, ano);
    SortByKeyCorrect(Agenda(Ativos(clientes), DiasDoMes(mes, ano)), ChaveOrdenacao);
    forall i, j | 0 <= i < j < |r| ensures NaoDepois(r[i], r[j]) {
      var c1, d1 := Origem(clientes, mes, ano, r[i]);
      var c2, d2 := Origem(clientes, mes, ano, r[j]);
      ChaveNovoAgendamento(c1, mes, ano, d1);
      ChaveNovoAgendamento(c2, mes, ano, d2);
      InstanteChaveIso(ano, mes, d1, c1.hora_atendimento);
      InstanteChaveIso(ano, mes, d2, c2.hora_atendimento);
      ChaveIsoOrder(ano, mes, d1, c1.hora_atendimento, d2, c2.hora_atendimento);
      assert StrLe(ChaveOrdenacao(r[i]), ChaveOrdenacao(r[j]));
      assert DayNumber(ano, mes, d1) - d1 == DayNumber(ano, mes, d2) - d2;
    }
  }

  /** The outer `forEach` of `gerarAgenda`: each active client in turn. */
  method MontarAgenda(ativos: seq<Cliente>, diasDoMes: seq<Dia>) returns (agendaTemp: seq<Agendamento>)
    ensures agendaTemp == Agenda(ativos, diasDoMes)
  {
    agendaTemp := [];
    for i := 0 to |ativos|
      invariant agendaTemp == Agenda(ativos[..i], diasDoMes)
    {
      var cliente := ativos[i];
      var diasCliente := DiasDoCliente(cliente, diasDoMes);
      agendaTemp := AgendarCliente(agendaTemp, cliente, diasCliente);
      AgendaStep(ativos, i, diasDoMes);
    }
    assert ativos[..|ativos|] == ativos;
  }

  /** The inner `forEach`: pushes one appointment per day of `diasCliente`. */
  method AgendarCliente(agenda: seq<Agendamento>, cliente: Cliente, diasCliente: seq<Dia>)
    returns (agendaTemp: seq<Agendamento>)
    ensures agendaTemp == agenda + AgendamentosDoCliente(cliente, diasCliente)
  {
    agendaTemp := agenda;
    for k := 0 to |diasCliente|
      invariant agendaTemp == agenda + AgendamentosDoCliente(cliente, diasCliente[..k])
    {
      agendaTemp := agendaTemp + [NovoAgendamento(cliente, diasCliente[k])];
      BlockStep(cliente, diasCliente, k);
    }
    assert diasCliente[..|diasCliente|] == diasCliente;
  }

  lemma AgendaStep(ativos: seq<Cliente>, i: int, dias: seq<Dia>)
    requires 0 <= i < |ativos|
    ensures Agenda(ativos[..i + 1], dias) ==
      Agenda(ativos[..i], dias) + AgendamentosDoCliente(ativos[i], DiasDoCliente(ativos[i], dias))
  {
    assert ativos[..i + 1][..i] == ativos[..i];
  }

  lemma BlockStep(c: Cliente, ds: seq<Dia>, k: int)
    requires 0 <= k < |ds|
    ensures AgendamentosDoCliente(c, ds[..k + 1]) == AgendamentosDoCliente(c, ds[..k]) + [NovoAgendamento(c, ds[k])]
  {
  }

  // The screen

  /** The two selectors of the form. */
  datatype Campo = Mes | Ano

  function MensagemSucesso(n: nat): string {
    "Agenda gerada com sucesso! " + NatToString(n) + " agendamentos criados."
  }

  class GeradorAgenda {
    var loading: bool
    var mes: int
    var ano: int
    var agendaGerada: seq<Agendamento>
    var clientes: seq<Cliente>
    var success: string
    var error: string

    /** The screen after mounting: month and year of today (from the clock, so parameters
        here) and the client list loaded. */
    constructor (mesAtual: int, anoAtual: int, clientesCarregados: seq<Cliente>)
      ensures mes == mesAtual && ano == anoAtual && clientes == clientesCarregados
      ensures !loading && agendaGerada == [] && success == "" && error == ""
    {
      loading := false;
      mes, ano := mesAtual, anoAtual;
      agendaGerada := [];
      clientes := clientesCarregados;
      success, error := "", "";
    }

    /** `handleChange`: one selector changes, nothing else does. */
    method HandleChange(campo: Campo, valor: int)
      modifies this
      ensures campo == Mes ==> mes == valor && ano == old(ano)
      ensures campo == Ano ==> ano == valor && mes == old(mes)
      ensures loading == old(loading) && agendaGerada == old(agendaGerada) && clientes == old(clientes)
      ensures success == old(success) && error == old(error)
    {
      match campo
      case Mes => mes := valor;
      case Ano => ano := valor;
    }

    /** `gerarAgenda`: builds the schedule of the selected month, replaces the shown one with
        it and reports how many appointments were created. */
    method GerarAgenda()
      requires MesValido(mes, ano)
      modifies this
      ensures clientes == old(clientes) && mes == old(mes) && ano == old(ano)
      ensures agendaGerada == AgendaDoMes(clientes, mes, ano)
      ensures success == MensagemSucesso(|agendaGerada|) && error == "" && !loading
    {
      loading := true;
      error := "";
      success := "";
      var diasDoMes := GetDiasDoMes(mes, ano);
      var agendaTemp := MontarAgenda(Ativos(clientes), diasDoMes);
      agendaTemp := SortByKey(agendaTemp, ChaveOrdenacao);
      agendaGerada := agendaTemp;
      success := MensagemSucesso(|agendaTemp|);
      loading := false;
    }

    /** `limparAgenda`. */
    method LimparAgenda()
      modifies this
      ensures agendaGerada == [] && success == "" && error == ""
      ensures loading == old(loading) && mes == old(mes) && ano == old(ano) && clientes == old(clientes)
    {
      agendaGerada := [];
      success := "";
      error := "";
    }
  }
}
