# Barbershop client ledger

A Dafny model of the only non-presentational logic of the barbershop app: the
`Cliente` record, the fixed list of five clients scheduled for the day, and
`BarberShopViewModel`, which holds the scheduled list, the walk-in list and
the two revenue totals ("today" and "this month"), and whose one command
appends a placeholder walk-in client and recomputes both totals.

- `Ledger.dfy` (module `Ledger`) holds the values: the `Cliente` datatype,
  the seed list `ClientesMarcadosPredefinidos`, the placeholder walk-in
  `ClienteNaoMarcado`, the recursive `Sum` of prices (Kotlin's
  `sumOf { it.valor }`), a `State` snapshot of the view model's four values,
  and the transitions on snapshots: `Inicial`, `ComClienteNaoMarcado` (one
  walk-in added) and `AposAdicoes(n)` (construction followed by `n`
  additions). The invariant `Consistent` says that both totals equal the sum
  of `valor` over the scheduled list followed by the walk-in list.
- `BarberShop.dfy` (module `BarberShop`) holds the class
  `BarberShopViewModel`, whose fields are the four state values; its
  constructor, `AdicionarClienteNaoMarcado`, `CalcularTotalHoje` and
  `CalcularTotalMes` update them in place, and each is proved to leave the
  object in the snapshot the `Ledger` functions describe.

Prices are Kotlin `Double`s in the program and `real`s here; every price in
the program is 30.0, so the program's sums are exact and agree with the
model's.

Both totals are computed by the same expression in the program, so the
month's total always equals today's; the model keeps that behaviour.

## Model

| member | source | states |
|---|---|---|
| `Ledger.SumConcat` | app/src/main/java/com/example/barbearia/MainActivity.kt:306 | the sum of prices over the scheduled list followed by the walk-in list is the sum over each list added together |
| `Ledger.SumAppend` | app/src/main/java/com/example/barbearia/MainActivity.kt:300 | appending one client adds exactly that client's price to the sum |
| `Ledger.SumUniform` | app/src/main/java/com/example/barbearia/MainActivity.kt:306 | when every client costs the same `v`, the sum is `v` times the number of clients |
| `Ledger.SeedFacts` | app/src/main/java/com/example/barbearia/MainActivity.kt:42-48 | the seed list has five entries named João, Maria, Pedro, Ana, Carlos in that order, each at 30.0, summing to 150.0 |
| `Ledger.Recalculado` | app/src/main/java/com/example/barbearia/MainActivity.kt:305-311 | recomputing the totals leaves both lists alone and makes both totals equal the sum over all clients; on a consistent state it changes nothing |
| `Ledger.Inicial` | app/src/main/java/com/example/barbearia/MainActivity.kt:281-296 | after construction the scheduled list is the seed list, the walk-in list is empty and both totals are 150.0 and consistent |
| `Ledger.ComClienteNaoMarcado` | app/src/main/java/com/example/barbearia/MainActivity.kt:298-303 | one addition appends exactly the placeholder `Cliente("Cliente não marcado", 30.0, "")` after all earlier walk-ins, keeps the scheduled list, re-establishes the invariant and grows each consistent total by exactly 30.0 |
| `Ledger.AdicionarNaoIdempotente` | app/src/main/java/com/example/barbearia/MainActivity.kt:298-303 | an addition always changes the state, also when applied a second time |
| `Ledger.AposAdicoes` | app/src/main/java/com/example/barbearia/MainActivity.kt:293-303 | after construction and `n` additions the scheduled list is the seed list, the walk-in list is `n` placeholders, and both totals are `150 + 30·n` |
| `Ledger.CortesAposAdicoes` | app/src/main/java/com/example/barbearia/MainActivity.kt:153 | after `n` additions the cut count shown for today is `5 + n`, and today's total is 30.0 per cut |
| `BarberShop.BarberShopViewModel.constructor` | app/src/main/java/com/example/barbearia/MainActivity.kt:280-296 | a new view model is in the initial snapshot: seed list scheduled, no walk-ins, both totals 150.0, invariant holds |
| `BarberShop.BarberShopViewModel.AdicionarClienteNaoMarcado` | app/src/main/java/com/example/barbearia/MainActivity.kt:298-303 | the object moves to the snapshot `ComClienteNaoMarcado` gives for the old one: placeholder appended, scheduled list unchanged, both totals up by 30.0, invariant kept |
| `BarberShop.BarberShopViewModel.CalcularTotalHoje` | app/src/main/java/com/example/barbearia/MainActivity.kt:305-307 | today's total becomes the sum over scheduled then walk-in clients, and nothing else changes |
| `BarberShop.BarberShopViewModel.CalcularTotalMes` | app/src/main/java/com/example/barbearia/MainActivity.kt:309-311 | the month's total becomes the same sum, and nothing else changes |

## Left out

- The Compose user interface (`BarberShopApp`, `MainScreen`, `ClienteItem`, `InfoCard`, `PreviewMainScreen`), theming, animation and navigation: presentation only. Of it, only the cut count shown on the "today" card (`Cortes`) is modelled.
- `MainActivity.onCreate`: Android lifecycle plumbing.
- `MutableStateFlow`/`StateFlow` and `collectAsState`: the observable containers are plain fields; observer notification is not modelled.
- IEEE-754 `Double` arithmetic: prices and totals are exact `real`s, which agree with the program because every price is 30.0.
- Text rendering of prices (`"R$ $value"`) and the conditional display of an empty `horario`: they depend on Kotlin's `Double.toString` and are UI logic.
