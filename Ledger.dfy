/** The value-level part of the barbershop's client ledger: the `Cliente`
    record, the seed list of scheduled clients, the summation of prices and
    a snapshot of the view model's four state values together with the
    transitions the view model performs on them. */
module Ledger {

  /** One client visit: name, price and time of day (empty for walk-ins).
      The price is a Kotlin `Double` in the program; it is a `real` here. */
  datatype Cliente = Cliente(nome: string, valor: real, horario: string)

  /** The five clients scheduled for the day, in display order. */
  const ClientesMarcadosPredefinidos: seq<Cliente> := [
    Cliente("João", 30.0, "09:00"),
    Cliente("Maria", 30.0, "10:00"),
    Cliente("Pedro", 30.0, "11:00"),
    Cliente("Ana", 30.0, "14:00"),
    Cliente("Carlos", 30.0, "16:00")
  ]

  /** The placeholder record every walk-in addition appends. */
  const ClienteNaoMarcado: Cliente := Cliente("Cliente não marcado", 30.0, "")

  /** The sum of `valor` over a list of clients (Kotlin's `sumOf { it.valor }`). */
  function Sum(s: seq<Cliente>): real
  {
    if s == [] then 0.0 else s[0].valor + Sum(s[1..])
  }

  /** Summing a concatenation is summing the parts. */
  lemma {:induction false} SumConcat(a: seq<Cliente>, b: seq<Cliente>)
    ensures Sum(a + b) == Sum(a) + Sum(b)
  {
    if a == [] {
      assert a + b == b;
    } else {
      assert (a + b)[1..] == a[1..] + b;
      SumConcat(a[1..], b);
    }
  }

  /** Appending one client adds exactly its price to the sum. */
  lemma SumAppend(s: seq<Cliente>, c: Cliente)
    ensures Sum(s + [c]) == Sum(s) + c.valor
  {
    SumConcat(s, [c]);
    assert Sum([c]) == c.valor + Sum([]);
  }

  /** When every client in a list has the same price `v`, the sum is `v`
      times the length of the list. */
  lemma {:induction false} SumUniform(s: seq<Cliente>, v: real)
    requires forall i :: 0 <= i < |s| ==> s[i].valor == v
    ensures Sum(s) == v * |s| as real
  {
    if s != [] {
      SumUniform(s[1..], v);
      assert v * |s| as real == v + v * (|s| - 1) as real;
    }
  }

  /** The seed list holds João, Maria, Pedro, Ana and Carlos in that order,
      every one at 30.0, and its prices add up to 150.0. */
  lemma SeedFacts()
    ensures |ClientesMarcadosPredefinidos| == 5
    ensures [ClientesMarcadosPredefinidos[0].nome, ClientesMarcadosPredefinidos[1].nome,
             ClientesMarcadosPredefinidos[2].nome, ClientesMarcadosPredefinidos[3].nome,
             ClientesMarcadosPredefinidos[4].nome] == ["João", "Maria", "Pedro", "Ana", "Carlos"]
    ensures forall i :: 0 <= i < 5 ==> ClientesMarcadosPredefinidos[i].valor == 30.0
    ensures Sum(ClientesMarcadosPredefinidos) == 150.0
  {
  }

  /** A snapshot of the view model's four observable values. */
  datatype State = State(
    clientesMarcados: seq<Cliente>,
    clientesNaoMarcados: seq<Cliente>,
    totalHoje: real,
    totalMes: real)

  /** All clients of the day: the scheduled ones followed by the walk-ins. */
  function Todos(s: State): seq<Cliente>
  {
    s.clientesMarcados + s.clientesNaoMarcados
  }

  /** The ledger's invariant: both totals are the sum of all prices. */
  predicate Consistent(s: State)
  {
    s.totalHoje == Sum(Todos(s)) && s.totalMes == Sum(Todos(s))
  }

  /** Both totals recomputed from the lists, as the view model's two
      `calcular` helpers do. */
  function Recalculado(s: State): (r: State)
    ensures Consistent(r)
    ensures r.clientesMarcados == s.clientesMarcados
    ensures r.clientesNaoMarcados == s.clientesNaoMarcados
    ensures Consistent(s) ==> r == s
  {
    s.(totalHoje := Sum(Todos(s)), totalMes := Sum(Todos(s)))
  }

  /** The state right after construction: the seed list scheduled, no
      walk-ins, and both totals computed from them. */
  function Inicial(): (r: State)
    ensures r.clientesMarcados == ClientesMarcadosPredefinidos
    ensures r.clientesNaoMarcados == []
    ensures Consistent(r)
    ensures r.totalHoje == 150.0 && r.totalMes == 150.0
  {
    SeedFacts();
    assert Todos(State(ClientesMarcadosPredefinidos, [], 0.0, 0.0)) == ClientesMarcadosPredefinidos;
    Recalculado(State(ClientesMarcadosPredefinidos, [], 0.0, 0.0))
  }

  /** The state after one walk-in addition: the placeholder appended after
      every earlier walk-in, the scheduled list untouched, the invariant
      re-established, and (from a consistent state) each total grown by 30. */
  function ComClienteNaoMarcado(s: State): (r: State)
    ensures r.clientesMarcados == s.clientesMarcados
    ensures r.clientesNaoMarcados == s.clientesNaoMarcados + [ClienteNaoMarcado]
    ensures |r.clientesNaoMarcados| == |s.clientesNaoMarcados| + 1
    ensures Consistent(r)
    ensures Consistent(s) ==> r.totalHoje == s.totalHoje + 30.0 && r.totalMes == s.totalMes + 30.0
  {
    var r := Recalculado(s.(clientesNaoMarcados := s.clientesNaoMarcados + [ClienteNaoMarcado]));
    assert Todos(r) == Todos(s) + [ClienteNaoMarcado];
    SumAppend(Todos(s), ClienteNaoMarcado);
    r
  }

  /** Adding a walk-in never leaves the state as it was: the operation is
      not idempotent, and a second call changes the state again. */
  lemma AdicionarNaoIdempotente(s: State)
    ensures ComClienteNaoMarcado(s) != s
    ensures ComClienteNaoMarcado(ComClienteNaoMarcado(s)) != ComClienteNaoMarcado(s)
  {
  }

  /** The state after construction followed by `n` walk-in additions. */
  function AposAdicoes(n: nat): (r: State)
    ensures r.clientesMarcados == ClientesMarcadosPredefinidos
    ensures |r.clientesNaoMarcados| == n
    ensures forall i :: 0 <= i < n ==> r.clientesNaoMarcados[i] == ClienteNaoMarcado
    ensures Consistent(r)
    ensures r.totalHoje == 150.0 + 30.0 * n as real && r.totalMes == r.totalHoje
  {
    if n == 0 then Inicial() else ComClienteNaoMarcado(AposAdicoes(n - 1))
  }

  /** The number of cuts shown on the "today" card: scheduled plus walk-in
      clients. */
  function Cortes(s: State): int
  {
    |s.clientesMarcados| + |s.clientesNaoMarcados|
  }

  /** After `n` additions the "today" card shows `5 + n` cuts, and the
      total is 30.0 per cut. */
  lemma CortesAposAdicoes(n: nat)
    ensures Cortes(AposAdicoes(n)) == 5 + n
    ensures AposAdicoes(n).totalHoje == 30.0 * Cortes(AposAdicoes(n)) as real
  {
  }
}
