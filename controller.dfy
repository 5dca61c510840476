/** ChavePixController: the choice among the three consultations from the query's filters. */
module ChavePixControllerModel {
  import opened Wrappers
  import opened Errors
  import opened Domain
  import opened ChavePixResponseMapper
  import opened ConsultarChavePixServiceModel

  /** The consultation a query selects. */
  datatype Consulta =
    | PorId(id: Uuid)
    | PorConta(agencia: Int32, numeroConta: Int32)
    | PorNome(nomeCorrentista: string)

  /**
   * The filter rule of consultarChavePix: an id combined with any other filter
   * is refused; an id alone selects the lookup by id; branch and account
   * together select the account lookup, ahead of a name; a name alone selects
   * the lookup by name; anything else is FILTRO_INVALIDO.
   */
  function SelecionarConsulta(
    id: Option<Uuid>, agencia: Option<Int32>, numeroConta: Option<Int32>,
    nomeCorrentista: Option<string>): (r: Result<Consulta>)
    ensures r == Err(Unprocessable(FILTRO_ID_COMBINADO)) <==>
      id.Some? && (agencia.Some? || numeroConta.Some? || nomeCorrentista.Some?)
    ensures (r.Ok? && r.value.PorId?) <==>
      id.Some? && agencia.None? && numeroConta.None? && nomeCorrentista.None?
    ensures (r.Ok? && r.value.PorConta?) <==> id.None? && agencia.Some? && numeroConta.Some?
    ensures (r.Ok? && r.value.PorNome?) <==>
      id.None? && (agencia.None? || numeroConta.None?) && nomeCorrentista.Some?
    ensures r == Err(BadRequest(FILTRO_INVALIDO)) <==>
      id.None? && (agencia.None? || numeroConta.None?) && nomeCorrentista.None?
    ensures r.Ok? ==> match r.value
      case PorId(i) => Some(i) == id
      case PorConta(a, c) => Some(a) == agencia && Some(c) == numeroConta
      case PorNome(n) => Some(n) == nomeCorrentista
  {
    var outrosFiltros := agencia.Some? || numeroConta.Some? || nomeCorrentista.Some?;
    if id.Some? && outrosFiltros then Err(Unprocessable(FILTRO_ID_COMBINADO))
    else if id.Some? then Ok(PorId(id.value))
    else if agencia.Some? && numeroConta.Some? then Ok(PorConta(agencia.value, numeroConta.value))
    else if nomeCorrentista.Some? then Ok(PorNome(nomeCorrentista.value))
    else Err(BadRequest(FILTRO_INVALIDO))
  }

  /** The body of a successful consultation: one key, or a list of keys. */
  datatype Resposta =
    | Uma(chave: ConsultarChavePixResponse)
    | Varias(chaves: seq<ConsultarChavePixResponse>)

  class ChavePixController {
    const consultarService: ConsultarChavePixService

    constructor (consultarService: ConsultarChavePixService)
      ensures this.consultarService == consultarService
    {
      this.consultarService := consultarService;
    }

    /** consultarChavePix: the selected consultation's answer, or the filter error. */
    method ConsultarChavePix(
      id: Option<Uuid>, agencia: Option<Int32>, numeroConta: Option<Int32>,
      nomeCorrentista: Option<string>) returns (r: Result<Resposta>)
      requires consultarService.repository.Valid()
      ensures var rows := consultarService.repository.rows;
        match SelecionarConsulta(id, agencia, numeroConta, nomeCorrentista)
        case Err(e) => r == Err(e)
        case Ok(PorId(i)) =>
          r == if i in rows then Ok(Uma(ToConsultarResponse(rows[i])))
               else Err(NotFound(CHAVE_NAO_ENCONTRADA))
        case Ok(PorConta(a, c)) =>
          var lista := consultarService.ConsultarPorConta(Some(a), Some(c));
          r == if lista.Ok? then Ok(Varias(lista.value)) else Err(lista.error)
        case Ok(PorNome(n)) => r == Ok(Varias(consultarService.ConsultarPorNome(n)))
    {
      var consulta := SelecionarConsulta(id, agencia, numeroConta, nomeCorrentista);
      if consulta.Err? {
        return Err(consulta.error);
      }
      match consulta.value
      case PorId(i) =>
        var resposta := consultarService.ConsultarPorId(i);
        if resposta.Err? {
          return Err(resposta.error);
        }
        return Ok(Uma(resposta.value));
      case PorConta(a, c) =>
        var lista := consultarService.ConsultarPorConta(Some(a), Some(c));
        if lista.Err? {
          return Err(lista.error);
        }
        return Ok(Varias(lista.value));
      case PorNome(n) =>
        return Ok(Varias(consultarService.ConsultarPorNome(n)));
    }
  }
}
