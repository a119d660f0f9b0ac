/**
 * Parcels ("encomendas") of Cegonha Express and their lifecycle.
 *
 * The entity class and the status enumeration are defined outside
 * `EncomendaService`; their operations are defined here by what their names say:
 * `isAtiva` holds unless the parcel is delivered or cancelled, `confirmar`,
 * `iniciarTransito` and `finalizarEntrega` each set the status they name, and
 * `cancelar(motivo)` sets the cancelled status and records the reason.
 */
module Encomendas {

  datatype Option<+T> = None | Some(value: T)

  /** What the service reports instead of a value. */
  datatype Erro =
    | NaoEncontrada      // EntityNotFoundException: no parcel with that id or code
    | Invalida           // a Bean Validation constraint on a parameter was violated
    | FreteIndisponivel  // the freight calculator failed; the creation rolls back

  datatype Resultado<+T> = Ok(valor: T) | Falha(erro: Erro)

  datatype StatusEncomenda = Pendente | Confirmada | EmTransito | Entregue | Cancelada

  /** A postal address; `uf` is the state code, kept as text. */
  datatype Endereco = Endereco(
    cep: string, logradouro: string, numero: string,
    bairro: string, cidade: string, uf: string)

  datatype Cliente = Cliente(nome: string, email: string, telefone: string, cpf: string)

  /** A computed freight: its cost and the distance it was computed for. */
  datatype Frete = Frete(valor: real, distanciaKm: real)

  /**
   * A stored parcel. `cliente`, `origem` and `destino` are the identities of
   * the rows it references; `dados` stands for the request fields that the
   * request-to-entity mapping copies unchanged.
   */
  datatype Encomenda = Encomenda(
    id: int,
    codigo: string,
    dados: string,
    status: StatusEncomenda,
    cliente: int,
    origem: int,
    destino: int,
    frete: Option<Frete>,
    motivoCancelamento: Option<string>)

  /** The tracking-code format `^CE\d+$`: "CE" followed by one or more ASCII digits. */
  predicate CodigoValido(s: string) {
    && |s| >= 3
    && s[0] == 'C' && s[1] == 'E'
    && forall i :: 2 <= i < |s| ==> '0' <= s[i] <= '9'
  }

  /**
   * Blank in the sense of `@NotBlank`: nothing is left once `String.trim()`
   * has removed every character up to U+0020.
   */
  predicate EmBranco(s: string) {
    forall i :: 0 <= i < |s| ==> s[i] <= ' '
  }

  /** `\d+`: one or more ASCII digits, read left to right. */
  predicate Digitos(t: string)
    decreases |t|
  {
    && |t| >= 1 && '0' <= t[0] <= '9'
    && (|t| == 1 || Digitos(t[1..]))
  }

  lemma {:induction false} DigitosSaoTodos(t: string)
    ensures Digitos(t) <==> |t| >= 1 && forall i :: 0 <= i < |t| ==> '0' <= t[i] <= '9'
    decreases |t|
  {
    if |t| > 1 {
      DigitosSaoTodos(t[1..]);
      assert forall i :: 1 <= i < |t| ==> t[i] == t[1..][i - 1];
    }
  }

  /** `CodigoValido` is the pattern `^CE\d+$` read piece by piece: the prefix "CE", then `\d+`. */
  lemma CodigoValidoSegueOPadrao(s: string)
    ensures CodigoValido(s) <==> |s| >= 2 && s[..2] == "CE" && Digitos(s[2..])
  {
    if |s| >= 2 {
      DigitosSaoTodos(s[2..]);
      assert forall i :: 2 <= i < |s| ==> s[i] == s[2..][i - 2];
      if s[..2] == "CE" {
        assert s[0] == s[..2][0] && s[1] == s[..2][1];
      }
    }
  }

  /** Java's `String.trim()`: drops every leading and trailing character up to U+0020. */
  function Trim(s: string): string {
    TrimFim(TrimInicio(s))
  }

  function TrimInicio(s: string): string
    decreases |s|
  {
    if |s| > 0 && s[0] <= ' ' then TrimInicio(s[1..]) else s
  }

  function TrimFim(s: string): string
    decreases |s|
  {
    if |s| > 0 && s[|s| - 1] <= ' ' then TrimFim(s[..|s| - 1]) else s
  }

  lemma {:induction false} TrimInicioVazio(s: string)
    ensures TrimInicio(s) == [] <==> EmBranco(s)
    ensures TrimInicio(s) != [] ==> TrimInicio(s)[0] > ' '
    decreases |s|
  {
    if |s| > 0 && s[0] <= ' ' {
      TrimInicioVazio(s[1..]);
      assert forall i :: 1 <= i < |s| ==> s[i] == s[1..][i - 1];
    }
  }

  lemma {:induction false} TrimFimNaoEsvazia(t: string)
    requires |t| > 0 && t[0] > ' '
    ensures TrimFim(t) != []
    decreases |t|
  {
    if t[|t| - 1] <= ' ' {
      TrimFimNaoEsvazia(t[..|t| - 1]);
    }
  }

  /** `EmBranco` is exactly `@NotBlank`'s failure: nothing is left after `trim()`. */
  lemma EmBrancoSeTrimVazio(s: string)
    ensures EmBranco(s) <==> Trim(s) == []
  {
    TrimInicioVazio(s);
    if TrimInicio(s) != [] {
      TrimFimNaoEsvazia(TrimInicio(s));
    }
  }

  predicate Ativa(e: Encomenda) {
    e.status != Entregue && e.status != Cancelada
  }

  function Confirmar(e: Encomenda): Encomenda { e.(status := Confirmada) }

  function IniciarTransito(e: Encomenda): Encomenda { e.(status := EmTransito) }

  function FinalizarEntrega(e: Encomenda): Encomenda { e.(status := Entregue) }

  function Cancelar(e: Encomenda, motivo: string): Encomenda {
    e.(status := Cancelada, motivoCancelamento := Some(motivo))
  }

  /**
   * The lifecycle as a transition table: forward along
   * Pendente, Confirmada, EmTransito, Entregue, or from any of the first
   * three to Cancelada. Nothing leaves Entregue or Cancelada.
   */
  predicate Transicao(de: StatusEncomenda, para: StatusEncomenda) {
    || (de == Pendente && para == Confirmada)
    || (de == Confirmada && para == EmTransito)
    || (de == EmTransito && para == Entregue)
    || (de != Entregue && de != Cancelada && para == Cancelada)
  }

  /** Position of a status along the lifecycle. */
  function Etapa(s: StatusEncomenda): nat {
    match s
    case Pendente => 0
    case Confirmada => 1
    case EmTransito => 2
    case Entregue => 3
    case Cancelada => 4
  }

  /** A cancellation reason is recorded exactly for cancelled parcels, and it is never blank. */
  predicate MotivoCoerente(e: Encomenda) {
    && (e.status == Cancelada <==> e.motivoCancelamento.Some?)
    && (e.motivoCancelamento.Some? ==> !EmBranco(e.motivoCancelamento.value))
  }

  /** The table only moves forward, and the two inactive statuses are terminal. */
  lemma TransicoesAvancam(de: StatusEncomenda, para: StatusEncomenda)
    ensures Transicao(de, para) ==> Etapa(de) < Etapa(para)
    ensures de == Entregue || de == Cancelada ==> !Transicao(de, para)
  {
  }

  /**
   * One step of the status advance: an active parcel takes the next forward
   * transition of the table, an inactive one is left alone. Only the status
   * changes.
   */
  function Avancar(e: Encomenda): (r: Encomenda)
    ensures !Ativa(e) ==> r == e
    ensures Ativa(e) ==> Transicao(e.status, r.status) && r.status != Cancelada
    ensures r == e.(status := r.status)
    ensures MotivoCoerente(e) ==> MotivoCoerente(r)
  {
    if Ativa(e) then
      match e.status
      case Pendente => Confirmar(e)
      case Confirmada => IniciarTransito(e)
      case EmTransito => FinalizarEntrega(e)
      case _ => e
    else
      e
  }

  /**
   * The cancellation both service entry points apply: an active parcel is
   * cancelled with the given reason, an inactive one keeps its status and its
   * reason.
   */
  function CancelarSeAtiva(e: Encomenda, motivo: string): (r: Encomenda)
    ensures Ativa(e) ==> Transicao(e.status, r.status)
    ensures Ativa(e) ==> r.status == Cancelada && r.motivoCancelamento == Some(motivo)
    ensures !Ativa(e) ==> r == e
    ensures r == e.(status := r.status, motivoCancelamento := r.motivoCancelamento)
    ensures !Ativa(r)
    ensures MotivoCoerente(e) && !EmBranco(motivo) ==> MotivoCoerente(r)
  {
    if Ativa(e) then Cancelar(e, motivo) else e
  }

  /** `n` status advances in a row. */
  function AvancarN(e: Encomenda, n: nat): Encomenda
    decreases n
  {
    if n == 0 then e else AvancarN(Avancar(e), n - 1)
  }

  /** Advancing an inactive parcel, any number of times, changes nothing. */
  lemma {:induction false} InativaNaoAvanca(e: Encomenda, n: nat)
    requires !Ativa(e)
    ensures AvancarN(e, n) == e
  {
    if n > 0 {
      InativaNaoAvanca(Avancar(e), n - 1);
    }
  }

  /**
   * From Pendente, the first three advances give Confirmada, EmTransito and
   * Entregue; every further advance leaves the delivered parcel as it is.
   */
  lemma {:induction false} TresAvancosEntregam(e: Encomenda, n: nat)
    requires e.status == Pendente
    requires n >= 3
    ensures AvancarN(e, 1) == e.(status := Confirmada)
    ensures AvancarN(e, 2) == e.(status := EmTransito)
    ensures AvancarN(e, 3) == e.(status := Entregue)
    ensures AvancarN(e, n) == AvancarN(e, 3)
  {
    var e1, e2, e3 := e.(status := Confirmada), e.(status := EmTransito), e.(status := Entregue);
    assert AvancarN(e, 1) == AvancarN(e1, 0) == e1;
    assert AvancarN(e1, 1) == AvancarN(e2, 0) == e2;
    assert AvancarN(e2, 1) == AvancarN(e3, 0) == e3;
    assert AvancarN(e, 2) == AvancarN(e1, 1);
    assert AvancarN(e, 3) == AvancarN(e1, 2) == AvancarN(e2, 1);
    InativaNaoAvanca(e3, n - 3);
    assert AvancarN(e, n) == AvancarN(e1, n - 1) == AvancarN(e2, n - 2) == AvancarN(e3, n - 3);
  }

  /** Whatever its status, a parcel is inactive after at most three advances. */
  lemma {:induction false} AvancosTerminam(e: Encomenda, n: nat)
    requires n >= 3 - Etapa(e.status)
    ensures !Ativa(AvancarN(e, n))
    decreases n
  {
    if Ativa(e) {
      AvancosTerminam(Avancar(e), n - 1);
    } else {
      InativaNaoAvanca(e, n);
    }
  }
}
