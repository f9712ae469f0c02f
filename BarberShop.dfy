/** The barbershop view model: the scheduled and walk-in client lists and the
    two revenue totals, held as mutable fields and updated in place by the
    walk-in command. The observable-flow wrappers of the program are plain
    fields here. */
module BarberShop {
  import opened Ledger

  class BarberShopViewModel {
    var clientesNaoMarcados: seq<Cliente>
    var clientesMarcados: seq<Cliente>
    var totalHoje: real
    var totalMes: real

    /** The four current values as one snapshot. */
    function Snapshot(): State
      reads this
    {
      State(clientesMarcados, clientesNaoMarcados, totalHoje, totalMes)
    }

    /** Both totals agree with the current lists. */
    predicate Valid()
      reads this
    {
      Consistent(Snapshot())
    }

    /** Starts with the seed list scheduled, no walk-ins and zero totals,
        then computes today's and the month's total. */
    constructor ()
      ensures Valid()
      ensures Snapshot() == Inicial()
      ensures clientesMarcados == ClientesMarcadosPredefinidos && clientesNaoMarcados == []
      ensures totalHoje == 150.0 && totalMes == 150.0
    {
      clientesNaoMarcados := [];
      clientesMarcados := ClientesMarcadosPredefinidos;
      totalHoje := 0.0;
      totalMes := 0.0;
      new;
      CalcularTotalHoje();
      CalcularTotalMes();
    }

    /** Appends the placeholder walk-in and recomputes both totals. */
    method AdicionarClienteNaoMarcado()
      requires Valid()
      modifies this
      ensures Valid()
      ensures Snapshot() == ComClienteNaoMarcado(old(Snapshot()))
      ensures clientesMarcados == old(clientesMarcados)
      ensures clientesNaoMarcados == old(clientesNaoMarcados) + [ClienteNaoMarcado]
      ensures totalHoje == old(totalHoje) + 30.0 && totalMes == old(totalMes) + 30.0
    {
      var novoCliente := Cliente("Cliente não marcado", 30.0, "");
      clientesNaoMarcados := clientesNaoMarcados + [novoCliente];
      CalcularTotalHoje();
      CalcularTotalMes();
    }

    /** Sets today's total to the sum over scheduled and walk-in clients. */
    method CalcularTotalHoje()
      modifies this`totalHoje
      ensures totalHoje == Sum(clientesMarcados + clientesNaoMarcados)
    {
      totalHoje := Sum(clientesMarcados + clientesNaoMarcados);
    }

    /** Sets the month's total to the same sum as today's. */
    method CalcularTotalMes()
      modifies this`totalMes
      ensures totalMes == Sum(clientesMarcados + clientesNaoMarcados)
    {
      totalMes := Sum(clientesMarcados + clientesNaoMarcados);
    }
  }
}
