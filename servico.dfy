/**
 * The parcel service (`EncomendaService`) over an in-memory stand-in for its
 * repositories. Each public operation is one atomic unit: it either applies
 * all of its writes or, on failure, none of them.
 */
module Servico {
  import opened Encomendas
  import opened Consultas

  /** The postal code whose address is the origin of every parcel. */
  const CepOrigem := "13801-005"

  /** The street number given to the origin address, found or not. */
  const NumeroOrigem := "567"

  /** The origin address used when the postal lookup gives nothing. */
  const OrigemFallback := Endereco(
    CepOrigem, "Rua Ariovaldo Silveira Franco", NumeroOrigem,
    "Jardim 31 de Março", "Mogi Mirim", "SP")

  /** The tax id under which every parcel's customer is looked up. */
  const CpfPadrao := "123.123.128-09"

  /** The customer created the first time no customer has `CpfPadrao`. */
  const ClientePadrao := Cliente("Jailson Mendes", "jailsonmmm@gmail.com", "11976543211", CpfPadrao)

  /** What the postal lookup returns for a postal code it knows. */
  datatype ViaCepEndereco = ViaCepEndereco(
    cep: string, logradouro: string, bairro: string, localidade: string, uf: string)

  /** The creation request: the destination address and the fields copied into the parcel. */
  datatype PedidoEncomenda = PedidoEncomenda(enderecoDestino: Endereco, dados: string)

  /**
   * The origin address: the fixed fallback when the lookup found nothing,
   * otherwise the looked-up address with the fixed street number.
   */
  function OrigemPadrao(busca: Option<ViaCepEndereco>): (r: Endereco)
    ensures r.numero == NumeroOrigem
    ensures busca.None? ==> r == OrigemFallback
    ensures busca.Some? ==>
      && r.cep == busca.value.cep && r.logradouro == busca.value.logradouro
      && r.bairro == busca.value.bairro && r.cidade == busca.value.localidade
      && r.uf == busca.value.uf
  {
    match busca
    case None => OrigemFallback
    case Some(v) => Endereco(v.cep, v.logradouro, NumeroOrigem, v.bairro, v.localidade, v.uf)
  }

  /**
   * A stored parcel is reachable by its code, is linked to rows that exist,
   * has its freight, and records a reason exactly when it is cancelled.
   */
  ghost predicate Ligada(e: Encomenda, codigos: map<string, int>,
                         clientes: map<int, Cliente>, enderecos: map<int, Endereco>)
  {
    && CodigoValido(e.codigo) && e.codigo in codigos && codigos[e.codigo] == e.id
    && e.cliente in clientes && e.origem in enderecos && e.destino in enderecos
    && e.frete.Some?
    && MotivoCoerente(e)
  }

  /**
   * The parcel table: rows keyed by their own id, below the next id, each
   * linked; the code index is a bijection onto the rows; the row order lists
   * every id once, ascending.
   */
  ghost predicate TabelaEncomendas(
    encomendas: map<int, Encomenda>, ordem: seq<int>, codigos: map<string, int>,
    clientes: map<int, Cliente>, enderecos: map<int, Endereco>, proxima: int)
  {
    && (forall id :: id in encomendas ==>
          encomendas[id].id == id && id < proxima && Ligada(encomendas[id], codigos, clientes, enderecos))
    && (forall c :: c in codigos ==> codigos[c] in encomendas && encomendas[codigos[c]].codigo == c)
    && (forall i, j :: 0 <= i < j < |ordem| ==> ordem[i] < ordem[j])
    && (forall id :: id in encomendas <==> id in ordem)
  }

  /** The address table: every id is below the next one. */
  ghost predicate TabelaEnderecos(enderecos: map<int, Endereco>, proximo: int) {
    forall id :: id in enderecos ==> id < proximo
  }

  /** The customer table: ids below the next one, and at most one customer per tax id. */
  ghost predicate TabelaClientes(clientes: map<int, Cliente>, cpfs: map<string, int>, proximo: int) {
    && (forall id :: id in clientes ==>
          id < proximo && clientes[id].cpf in cpfs && cpfs[clientes[id].cpf] == id)
    && (forall c :: c in cpfs ==> cpfs[c] in clientes && clientes[cpfs[c]].cpf == c)
  }

  lemma EnderecoNovo(enderecos: map<int, Endereco>, proximo: int, x: Endereco)
    requires TabelaEnderecos(enderecos, proximo)
    ensures proximo !in enderecos && TabelaEnderecos(enderecos[proximo := x], proximo + 1)
  {
  }

  lemma ClientePadraoNovo(clientes: map<int, Cliente>, cpfs: map<string, int>, proximo: int)
    requires TabelaClientes(clientes, cpfs, proximo) && CpfPadrao !in cpfs
    ensures proximo !in clientes
    ensures TabelaClientes(clientes[proximo := ClientePadrao], cpfs[CpfPadrao := proximo], proximo + 1)
  {
  }

  /** Saving a new linked parcel under the next id keeps the parcel table consistent. */
  lemma EncomendaNova(
    encomendas: map<int, Encomenda>, ordem: seq<int>, codigos: map<string, int>,
    clientes: map<int, Cliente>, enderecos: map<int, Endereco>, proxima: int,
    clientes': map<int, Cliente>, enderecos': map<int, Endereco>, e: Encomenda)
    requires TabelaEncomendas(encomendas, ordem, codigos, clientes, enderecos, proxima)
    requires clientes.Keys <= clientes'.Keys && enderecos.Keys <= enderecos'.Keys
    requires e.id == proxima && e.codigo !in codigos
    requires Ligada(e, codigos[e.codigo := e.id], clientes', enderecos')
    ensures e.id !in encomendas
    ensures TabelaEncomendas(encomendas[e.id := e], ordem + [e.id], codigos[e.codigo := e.id],
                             clientes', enderecos', proxima + 1)
  {
    var encomendas', ordem', codigos' := encomendas[e.id := e], ordem + [e.id], codigos[e.codigo := e.id];
    forall id | id in encomendas'
      ensures encomendas'[id].id == id && id < proxima + 1
      ensures Ligada(encomendas'[id], codigos', clientes', enderecos')
    {
      if id != e.id {
        var x := encomendas[id];
        assert Ligada(x, codigos, clientes, enderecos);
        assert x.codigo != e.codigo;
      }
    }
    forall i, j | 0 <= i < j < |ordem'| ensures ordem'[i] < ordem'[j] {
      if j == |ordem| {
        assert ordem[i] in ordem;
      }
    }
  }

  class EncomendaService {
    /** Parcel repository: rows by id, their order, and the unique tracking-code index. */
    var encomendas: map<int, Encomenda>
    var ordem: seq<int>
    var codigos: map<string, int>
    /** Address repository. */
    var enderecos: map<int, Endereco>
    /** Customer repository and its unique tax-id index. */
    var clientes: map<int, Cliente>
    var cpfs: map<string, int>
    /** The identity each repository assigns on its next first save. */
    var proximaEncomenda: int
    var proximoEndereco: int
    var proximoCliente: int

    ghost predicate Valid()
      reads this
    {
      && TabelaEncomendas(encomendas, ordem, codigos, clientes, enderecos, proximaEncomenda)
      && TabelaEnderecos(enderecos, proximoEndereco)
      && TabelaClientes(clientes, cpfs, proximoCliente)
    }

    /** Empty repositories whose identities start at 1. */
    constructor ()
      ensures Valid()
      ensures encomendas == map[] && ordem == [] && codigos == map[]
      ensures enderecos == map[] && clientes == map[] && cpfs == map[]
    {
      encomendas, ordem, codigos := map[], [], map[];
      enderecos, clientes, cpfs := map[], map[], map[];
      proximaEncomenda, proximoEndereco, proximoCliente := 1, 1, 1;
    }

    /** The customer a creation links to: the one with `CpfPadrao`, or the one it will create. */
    ghost function ClienteResolvido(): int
      reads this
    {
      if CpfPadrao in cpfs then cpfs[CpfPadrao] else proximoCliente
    }

    /** The parcel a creation saves before its freight is known. */
    ghost function Casca(pedido: PedidoEncomenda, codigo: string): Encomenda
      reads this
    {
      Encomenda(proximaEncomenda, codigo, pedido.dados, Pendente, ClienteResolvido(),
                proximoEndereco, proximoEndereco + 1, None, None)
    }

    /**
     * Creates a parcel: resolves and saves the origin, saves the destination,
     * finds or creates the default customer, saves the parcel, then computes
     * and attaches its freight. `buscarCep` is the postal lookup,
     * `calcularFrete` the freight calculator (None when it fails) and
     * `codigoGerado` the tracking code the new row receives.
     */
    method CriaEncomenda(
      pedido: PedidoEncomenda,
      buscarCep: string -> Option<ViaCepEndereco>,
      calcularFrete: (Encomenda, Endereco, Endereco) -> Option<Frete>,
      codigoGerado: string)
      returns (r: Resultado<Encomenda>)
      requires Valid()
      requires CodigoValido(codigoGerado) && codigoGerado !in codigos
      modifies this
      ensures Valid()
      ensures
        var casca := old(Casca(pedido, codigoGerado));
        var frete := calcularFrete(casca, OrigemPadrao(buscarCep(CepOrigem)), pedido.enderecoDestino);
        && (frete.None? ==> r == Falha(FreteIndisponivel) && unchanged(this))
        && (frete.Some? ==> r == Ok(casca.(frete := frete)))
      ensures r.Ok? ==>
        var e := r.valor;
        // one new parcel, pending, with the generated code and a freight
        && e.id !in old(encomendas) && e.codigo == codigoGerado && e.dados == pedido.dados
        && e.status == Pendente && e.frete.Some? && e.motivoCancelamento == None
        && encomendas == old(encomendas)[e.id := e]
        && codigos == old(codigos)[codigoGerado := e.id]
        && ordem == old(ordem) + [e.id]
        // two new addresses: the resolved origin and the requested destination
        && e.origem !in old(enderecos) && e.destino !in old(enderecos) && e.origem != e.destino
        && enderecos == old(enderecos)[e.origem := OrigemPadrao(buscarCep(CepOrigem))]
                                      [e.destino := pedido.enderecoDestino]
        // the customer with the default tax id, created only if there was none
        && e.cliente in clientes && clientes[e.cliente].cpf == CpfPadrao
        && (CpfPadrao in old(cpfs) ==> e.cliente == old(cpfs[CpfPadrao]) && clientes == old(clientes))
        && (CpfPadrao !in old(cpfs) ==>
              e.cliente !in old(clientes) && clientes == old(clientes)[e.cliente := ClientePadrao])
        && cpfs.Keys == old(cpfs.Keys) + {CpfPadrao}
    {
      // The writes are staged in locals and committed together at the end:
      // a failure anywhere leaves the repositories as they were.
      var enderecos', proximoEndereco' := enderecos, proximoEndereco;
      var clientes', cpfs', proximoCliente' := clientes, cpfs, proximoCliente;

      var origem := OrigemPadrao(buscarCep(CepOrigem));
      var idOrigem := proximoEndereco';
      enderecos', proximoEndereco' := enderecos'[idOrigem := origem], proximoEndereco' + 1;
      var idDestino := proximoEndereco';
      enderecos', proximoEndereco' := enderecos'[idDestino := pedido.enderecoDestino], proximoEndereco' + 1;

      var idCliente;
      if CpfPadrao in cpfs' {
        idCliente := cpfs'[CpfPadrao];
      } else {
        idCliente := proximoCliente';
        clientes', cpfs' := clientes'[idCliente := ClientePadrao], cpfs'[CpfPadrao := idCliente];
        proximoCliente' := proximoCliente' + 1;
      }

      var e := Encomenda(proximaEncomenda, codigoGerado, pedido.dados, Pendente,
                         idCliente, idOrigem, idDestino, None, None);
      var frete := calcularFrete(e, origem, pedido.enderecoDestino);
      if frete.None? {
        return Falha(FreteIndisponivel);
      }
      e := e.(frete := frete);

      EnderecoNovo(enderecos, proximoEndereco, origem);
      EnderecoNovo(enderecos[idOrigem := origem], idDestino, pedido.enderecoDestino);
      if CpfPadrao !in cpfs {
        ClientePadraoNovo(clientes, cpfs, proximoCliente);
      }
      EncomendaNova(encomendas, ordem, codigos, clientes, enderecos, proximaEncomenda,
                    clientes', enderecos', e);
      Gravar(encomendas[e.id := e], ordem + [e.id], codigos[codigoGerado := e.id], proximaEncomenda + 1,
             enderecos', proximoEndereco', clientes', cpfs', proximoCliente');
      r := Ok(e);
    }

    /**
     * The transaction commit: replaces every repository at once with the
     * writes an operation staged, which must leave the store consistent.
     */
    method Gravar(
      encomendas': map<int, Encomenda>, ordem': seq<int>, codigos': map<string, int>, proximaEncomenda': int,
      enderecos': map<int, Endereco>, proximoEndereco': int,
      clientes': map<int, Cliente>, cpfs': map<string, int>, proximoCliente': int)
      requires TabelaEncomendas(encomendas', ordem', codigos', clientes', enderecos', proximaEncomenda')
      requires TabelaEnderecos(enderecos', proximoEndereco')
      requires TabelaClientes(clientes', cpfs', proximoCliente')
      modifies this
      ensures Valid()
      ensures encomendas == encomendas' && ordem == ordem' && codigos == codigos'
      ensures proximaEncomenda == proximaEncomenda' && enderecos == enderecos'
      ensures proximoEndereco == proximoEndereco' && clientes == clientes'
      ensures cpfs == cpfs' && proximoCliente == proximoCliente'
    {
      encomendas, ordem, codigos, proximaEncomenda := encomendas', ordem', codigos', proximaEncomenda';
      enderecos, proximoEndereco := enderecos', proximoEndereco';
      clientes, cpfs, proximoCliente := clientes', cpfs', proximoCliente';
    }

    /**
     * Advances the parcel with tracking code `codigo` by one lifecycle step
     * and returns its status afterwards; an inactive parcel is left alone.
     */
    method AvancarStatus(codigo: string) returns (r: Resultado<StatusEncomenda>)
      requires Valid()
      modifies this`encomendas
      ensures Valid()
      ensures !CodigoValido(codigo) ==> r == Falha(Invalida) && encomendas == old(encomendas)
      ensures CodigoValido(codigo) && codigo !in codigos ==>
        r == Falha(NaoEncontrada) && encomendas == old(encomendas)
      ensures CodigoValido(codigo) && codigo in codigos ==>
        var id := codigos[codigo];
        && encomendas == old(encomendas)[id := Avancar(old(encomendas)[id])]
        && r == Ok(encomendas[id].status)
    {
      if !CodigoValido(codigo) {
        return Falha(Invalida);
      }
      if codigo !in codigos {
        return Falha(NaoEncontrada);
      }
      var id := codigos[codigo];
      var e := encomendas[id];
      if Ativa(e) {
        match e.status {
          case Pendente => e := Confirmar(e);
          case Confirmada => e := IniciarTransito(e);
          case EmTransito => e := FinalizarEntrega(e);
          case _ =>
        }
        encomendas := encomendas[id := e];
      }
      r := Ok(e.status);
    }

    /** The parcel with tracking code `codigo`. */
    function BuscarPorCodigo(codigo: string): (r: Resultado<Encomenda>)
      reads this
      requires Valid()
      ensures r.Ok? ==> r.valor.codigo == codigo && r.valor.id in encomendas && encomendas[r.valor.id] == r.valor
      ensures r == Falha(Invalida) <==> !CodigoValido(codigo)
      ensures CodigoValido(codigo) && codigo in codigos ==> r.Ok?
      ensures r.Falha? ==> r.erro != FreteIndisponivel
      ensures r == Falha(NaoEncontrada) <==>
        CodigoValido(codigo) && forall id :: id in encomendas ==> encomendas[id].codigo != codigo
    {
      if !CodigoValido(codigo) then Falha(Invalida)
      else if codigo !in codigos then Falha(NaoEncontrada)
      else
        var id := codigos[codigo];
        assert Ligada(encomendas[id], codigos, clientes, enderecos);
        Ok(encomendas[id])
    }

    /**
     * Cancels the parcel with identity `id` for the given reason if it is
     * active, and returns its status afterwards.
     */
    method CancelarEncomenda(id: int, motivo: string) returns (r: Resultado<StatusEncomenda>)
      requires Valid()
      modifies this`encomendas
      ensures Valid()
      ensures EmBranco(motivo) ==> r == Falha(Invalida) && encomendas == old(encomendas)
      ensures !EmBranco(motivo) && id !in encomendas ==>
        r == Falha(NaoEncontrada) && encomendas == old(encomendas)
      ensures !EmBranco(motivo) && id in old(encomendas) ==>
        && encomendas == old(encomendas)[id := CancelarSeAtiva(old(encomendas)[id], motivo)]
        && r == Ok(encomendas[id].status)
    {
      if EmBranco(motivo) {
        return Falha(Invalida);
      }
      if id !in encomendas {
        return Falha(NaoEncontrada);
      }
      var e := encomendas[id];
      if Ativa(e) {
        encomendas := encomendas[id := Cancelar(e, motivo)];
      }
      r := Ok(encomendas[id].status);
    }

    /**
     * Cancels the parcel with tracking code `codigo`: the same effect as
     * `CancelarEncomenda` on that parcel's identity.
     */
    method CancelarEncomendaPorCodigo(codigo: string, motivo: string) returns (r: Resultado<StatusEncomenda>)
      requires Valid()
      modifies this`encomendas
      ensures Valid()
      ensures !CodigoValido(codigo) || EmBranco(motivo) ==>
        r == Falha(Invalida) && encomendas == old(encomendas)
      ensures CodigoValido(codigo) && !EmBranco(motivo) && codigo !in codigos ==>
        r == Falha(NaoEncontrada) && encomendas == old(encomendas)
      ensures CodigoValido(codigo) && !EmBranco(motivo) && codigo in codigos ==>
        var id := codigos[codigo];
        && encomendas == old(encomendas)[id := CancelarSeAtiva(old(encomendas)[id], motivo)]
        && r == Ok(encomendas[id].status)
    {
      if !CodigoValido(codigo) || EmBranco(motivo) {
        return Falha(Invalida);
      }
      if codigo !in codigos {
        return Falha(NaoEncontrada);
      }
      var id := codigos[codigo];
      var e := encomendas[id];
      if Ativa(e) {
        encomendas := encomendas[id := Cancelar(e, motivo)];
      }
      r := Ok(encomendas[id].status);
    }

    /** Every stored parcel, once each, in store order. */
    function BuscarTodasAsEncomendas(): (r: seq<Encomenda>)
      reads this
      requires Valid()
      ensures forall id :: id in encomendas ==> encomendas[id] in r
      ensures forall e :: e in r ==> e.id in encomendas && encomendas[e.id] == e
      ensures IdsCrescentes(r)
    {
      var tabela, linhas := encomendas, ordem;
      assert forall i :: 0 <= i < |linhas| ==> linhas[i] in linhas;
      var r := seq(|linhas|, i requires 0 <= i < |linhas| && linhas[i] in tabela => tabela[linhas[i]]);
      assert forall id :: id in encomendas ==> encomendas[id] in r by {
        forall id | id in encomendas ensures encomendas[id] in r {
          var k :| 0 <= k < |ordem| && ordem[k] == id;
          assert r[k] == encomendas[id];
        }
      }
      r
    }

    /** The stored parcels whose status is not in `excluidos`, once each, in store order. */
    function BuscarPorStatusDiferentesDe(excluidos: seq<StatusEncomenda>): (r: seq<Encomenda>)
      reads this
      requires Valid()
      ensures forall id :: id in encomendas && encomendas[id].status !in excluidos ==> encomendas[id] in r
      ensures forall e :: e in r ==> e.status !in excluidos && e.id in encomendas && encomendas[e.id] == e
      ensures IdsCrescentes(r)
    {
      ExcluindoStatus(BuscarTodasAsEncomendas(), excluidos)
    }
  }

  /**
   * Three advances of a pending parcel answer Confirmada, EmTransito and
   * Entregue; a fourth answers Entregue again and changes nothing. No other
   * parcel is touched.
   */
  method AvancosAteEntrega(s: EncomendaService, codigo: string)
    returns (r1: Resultado<StatusEncomenda>, r2: Resultado<StatusEncomenda>,
             r3: Resultado<StatusEncomenda>, r4: Resultado<StatusEncomenda>)
    requires s.Valid() && CodigoValido(codigo) && codigo in s.codigos
    requires s.encomendas[s.codigos[codigo]].status == Pendente
    modifies s`encomendas
    ensures s.Valid()
    ensures r1 == Ok(Confirmada) && r2 == Ok(EmTransito) && r3 == Ok(Entregue) && r4 == Ok(Entregue)
    ensures var id := s.codigos[codigo];
      s.encomendas == old(s.encomendas)[id := old(s.encomendas)[id].(status := Entregue)]
  {
    r1 := s.AvancarStatus(codigo);
    r2 := s.AvancarStatus(codigo);
    r3 := s.AvancarStatus(codigo);
    r4 := s.AvancarStatus(codigo);
  }

  /**
   * Cancelling by identity on one service and by tracking code on another
   * service in the same state leaves the two in the same state with the same
   * answer.
   */
  method CancelamentosEquivalentes(a: EncomendaService, b: EncomendaService, codigo: string, motivo: string)
    returns (ra: Resultado<StatusEncomenda>, rb: Resultado<StatusEncomenda>)
    requires a != b && a.Valid() && b.Valid()
    requires a.encomendas == b.encomendas && a.codigos == b.codigos
    requires CodigoValido(codigo) && codigo in a.codigos
    modifies a`encomendas, b`encomendas
    ensures ra == rb && a.encomendas == b.encomendas
  {
    ra := a.CancelarEncomenda(a.codigos[codigo], motivo);
    rb := b.CancelarEncomendaPorCodigo(codigo, motivo);
  }
}
