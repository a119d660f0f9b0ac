# Cegonha Express parcel service, modelled in Dafny

This project models the parcel ("encomenda") service of Cegonha Express:
`EncomendaService`, which creates parcels, advances them through their
lifecycle (PENDENTE, CONFIRMADA, EM_TRANSITO, then delivered), cancels them
by identity or by tracking code, and answers three queries. The repositories
behind the service are an in-memory store. Parcels are kept by id, with a
unique tracking-code index and a row order. Addresses are kept by id.
Customers are kept by id, with a unique tax-id (CPF) index.

- `encomenda.dfy` (module `Encomendas`): the entities as values, the status
  enumeration, the entity operations the service calls (`isAtiva`,
  `confirmar`, `iniciarTransito`, `finalizarEntrega`, `cancelar`), the
  lifecycle as a transition table, and lemmas about repeated advances.
- `consultas.dfy` (module `Consultas`): the `status NOT IN (...)` filter
  behind `buscarPorStatusDiferentesDe`, with its lemmas.
- `servico.dfy` (module `Servico`): the class `EncomendaService`. Its map
  fields are the repositories. `Valid()` is the store invariant. The
  operations of the service are methods (the ones that write) and
  functions (the read-only queries).

Assumptions about code outside this model. The entity `Encomenda` and the
enumeration `StatusEncomenda` are not part of this model. Their operations
are defined by what their names say:
- a parcel is active unless it is delivered (`Entregue`) or cancelled
  (`Cancelada`);
- `confirmar`, `iniciarTransito` and `finalizarEntrega` each set the status
  they name;
- `cancelar(motivo)` sets `Cancelada` and records the reason;
- a parcel built from a request starts as `Pendente`, with no freight and
  no reason.

Collaborators become parameters:
- the postal lookup is a function from postal code to an optional address;
- the freight calculator is a function from the saved parcel and its two
  addresses to an optional freight, where nothing means it failed;
- the tracking code the new row receives is a parameter. It must have the
  `CE` + digits form and must not already be in use.

Validation. The Bean Validation constraints are checked before anything
else, and a violation is the error `Invalida`:
- `@Pattern("^CE\d+$")` on codes;
- `@NotBlank` on reasons. Blank follows `String.trim()`: every character
  is at most U+0020.

Atomicity. Each operation is one transaction. Creation stages its writes and
commits them only once the freight is known. A failed creation leaves the
store exactly as it was.

The fallback origin is used only when the postal lookup returns null
(`EncomendaService.java` line 43). An exception thrown by the lookup is not
caught in `criaEncomenda`.

## Model

| member | source | states |
|---|---|---|
| `Encomendas.CodigoValidoSegueOPadrao` | src/main/java/br/com/cegonhaexpress/cegonha_express/service/EncomendaService.java:84-86 | the code check `CodigoValido` (the `@Pattern("^CE\\d+$")` constraint, also at lines 105 and 128) holds exactly when the code is "CE" followed by one or more ASCII digits, read structurally |
| `Encomendas.EmBrancoSeTrimVazio` | src/main/java/br/com/cegonhaexpress/cegonha_express/service/EncomendaService.java:116-117 | the reason check `EmBranco` (the `@NotBlank` constraint, also at line 130) holds exactly when Java's `trim()` leaves nothing |
| `Encomendas.Avancar` | src/main/java/br/com/cegonhaexpress/cegonha_express/service/EncomendaService.java:91-98 | an inactive parcel is returned unchanged; an active one takes a forward transition of the lifecycle table (never to Cancelada), and only its status changes; the reason/status coherence is kept |
| `Encomendas.CancelarSeAtiva` | src/main/java/br/com/cegonhaexpress/cegonha_express/service/EncomendaService.java:122-123 | an active parcel becomes Cancelada (a table transition) with exactly the given reason; an inactive one keeps status and reason; the result is inactive; nothing else changes |
| `Encomendas.TransicoesAvancam` | src/main/java/br/com/cegonhaexpress/cegonha_express/service/EncomendaService.java:91-96 | every lifecycle transition moves forward, and nothing leaves Entregue or Cancelada |
| `Encomendas.InativaNaoAvanca` | src/main/java/br/com/cegonhaexpress/cegonha_express/service/EncomendaService.java:91-100 | any number of advances of an inactive parcel leave it unchanged |
| `Encomendas.TresAvancosEntregam` | src/main/java/br/com/cegonhaexpress/cegonha_express/service/EncomendaService.java:92-96 | from Pendente, advances give Confirmada, EmTransito, Entregue, and every further advance is a no-op |
| `Encomendas.AvancosTerminam` | src/main/java/br/com/cegonhaexpress/cegonha_express/service/EncomendaService.java:91-96 | any parcel is inactive after at most three advances |
| `Consultas.ExcluindoStatus` | src/main/java/br/com/cegonhaexpress/cegonha_express/service/EncomendaService.java:145-147 | a row is in the result exactly when it is in the input and its status is not excluded; the result is no longer than the input and keeps ascending id order |
| `Consultas.ExcluindoNadaMantemTudo` | src/main/java/br/com/cegonhaexpress/cegonha_express/service/EncomendaService.java:145-147 | excluding no status returns the input unchanged |
| `Consultas.ExclusoesCompoem` | src/main/java/br/com/cegonhaexpress/cegonha_express/service/EncomendaService.java:145-147 | excluding `a` and then `b` equals excluding `a + b` |
| `Consultas.ExcluirInativasDeixaAtivas` | src/main/java/br/com/cegonhaexpress/cegonha_express/service/EncomendaService.java:145-147 | excluding Entregue and Cancelada leaves exactly the active parcels |
| `Servico.OrigemPadrao` | src/main/java/br/com/cegonhaexpress/cegonha_express/service/EncomendaService.java:41-61 | with no lookup result the origin is the fixed Mogi Mirim address; otherwise it is built from the lookup's fields; the number is always "567" |
| `Servico.EnderecoNovo` | src/main/java/br/com/cegonhaexpress/cegonha_express/service/EncomendaService.java:62-64 | saving an address under the next id uses a fresh id and keeps the address table consistent |
| `Servico.ClientePadraoNovo` | src/main/java/br/com/cegonhaexpress/cegonha_express/service/EncomendaService.java:65-71 | creating the default customer when its CPF is absent uses a fresh id and keeps one customer per CPF |
| `Servico.EncomendaNova` | src/main/java/br/com/cegonhaexpress/cegonha_express/service/EncomendaService.java:72-79 | saving a fully linked parcel under the next id keeps the parcel table, code index and row order consistent |
| `Servico.EncomendaService.constructor` | src/main/java/br/com/cegonhaexpress/cegonha_express/service/EncomendaService.java:25-35 | a service over empty repositories satisfies the store invariant |
| `Servico.EncomendaService.CriaEncomenda` | src/main/java/br/com/cegonhaexpress/cegonha_express/service/EncomendaService.java:39-81 | if the freight calculator fails, the error is returned and nothing is stored. Otherwise exactly one new parcel is stored: Pendente, with the generated code and the calculator's freight for the saved parcel. It links to two fresh addresses (the resolved origin and the requested destination) and to the customer with CPF 123.123.128-09, which is created only if absent. The invariant is kept |
| `Servico.EncomendaService.AvancarStatus` | src/main/java/br/com/cegonhaexpress/cegonha_express/service/EncomendaService.java:83-101 | a malformed code gives Invalida and an unknown code gives NaoEncontrada, both with no change. Otherwise only that parcel is replaced by its advance, and the result is its new stored status. The invariant is kept |
| `Servico.EncomendaService.BuscarPorCodigo` | src/main/java/br/com/cegonhaexpress/cegonha_express/service/EncomendaService.java:103-113 | a well-formed code in the index returns Ok with the stored parcel that has that code, and no other error is possible. Invalida exactly when the code is malformed. NaoEncontrada exactly when the code is well formed and no stored parcel has it |
| `Servico.EncomendaService.CancelarEncomenda` | src/main/java/br/com/cegonhaexpress/cegonha_express/service/EncomendaService.java:115-124 | a blank reason gives Invalida and an unknown id gives NaoEncontrada, both with no change. Otherwise only that parcel is replaced by its cancel-if-active, and the result is its stored status. The invariant is kept |
| `Servico.EncomendaService.CancelarEncomendaPorCodigo` | src/main/java/br/com/cegonhaexpress/cegonha_express/service/EncomendaService.java:126-142 | the same as by id, applied to the parcel the code indexes. A malformed code or blank reason gives Invalida and an unknown code gives NaoEncontrada, both with no change |
| `Servico.EncomendaService.BuscarTodasAsEncomendas` | src/main/java/br/com/cegonhaexpress/cegonha_express/service/EncomendaService.java:150-154 | every stored parcel is in the result, every result is a stored parcel, and the results are in strictly ascending id (store) order, so each parcel appears once |
| `Servico.EncomendaService.BuscarPorStatusDiferentesDe` | src/main/java/br/com/cegonhaexpress/cegonha_express/service/EncomendaService.java:144-148 | exactly the stored parcels whose status is not excluded, once each, in store order |
| `Servico.AvancosAteEntrega` | src/main/java/br/com/cegonhaexpress/cegonha_express/service/EncomendaService.java:84-101 | four advances of a pending parcel answer Confirmada, EmTransito, Entregue, Entregue. The parcel ends up delivered with nothing else changed, and no other parcel is touched |
| `Servico.CancelamentosEquivalentes` | src/main/java/br/com/cegonhaexpress/cegonha_express/service/EncomendaService.java:116-142 | take two stores in the same state. Cancelling by id in one and by the matching code in the other gives the same answer and the same parcels |

## Left out

- Spring and JPA: `@Transactional`, `@Validated` and persistence itself are not modelled. Each operation is atomic, validation is an error path, and the repositories are maps.
- Parcels are values in the store, not managed entity objects. Aliasing of a loaded entity and flush-at-commit are not modelled.
- The `CE` + digits code check is a predicate. The Bean Validation machinery, its messages and `null` arguments are left out.
- `FreteService` is assumed to return a freight or throw. In `CriaEncomenda` the calculator's `None` stands for that exception, which rolls the creation back. A null return, which lines 77-79 would store as a parcel without freight, is not modelled.
- The postal lookup `ViaCepService.buscarEnderecoPorCep` is an HTTP call. It is a function parameter giving an optional address. Exceptions it might throw are not modelled.
- `UF.valueOf` is not modelled: the state code stays a string. An unknown code from the lookup would throw and roll back the creation, and the model does not capture that.
- `FreteService.calcularFreteComDistanciaReal` is a function parameter; its distance, cost and floating-point arithmetic are left out. The freight repository is declared but not used in this file, and freight rows are not modelled.
- Request and response mapping (`toEntity`, `EncomendaResponseDTO.fromEntity`) is left out. The response is the parcel record itself. The other request fields are one opaque `dados` value.
- Id and tracking-code generation happen in unseen code. Ids come from per-repository counters. The new tracking code is a parameter required to be well formed and unused.
- Storage order: rows are listed in insertion order, which is ascending id. JPA itself guarantees no order.
- Repository failures other than the freight calculator's are not modelled. Neither are concurrency, isolation levels, or exception message texts.
