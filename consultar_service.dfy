/** ConsultarChavePixService: read-only lookups by id, by account and by first name. */
module ConsultarChavePixServiceModel {
  import opened Wrappers
  import opened Errors
  import opened Domain
  import opened ChavePixEntityModel
  import opened ChavePixMapper
  import opened ChavePixResponseMapper
  import opened ChavePixRepositoryModel

  class ConsultarChavePixService {
    const repository: Repositorio

    constructor (repository: Repositorio)
      ensures this.repository == repository
    {
      this.repository := repository;
    }

    /** consultarPorId: the response for the row under `id`, or CHAVE_NAO_ENCONTRADA. */
    method ConsultarPorId(id: Uuid) returns (r: Result<ConsultarChavePixResponse>)
      requires repository.Valid()
      ensures id in repository.rows ==> r == Ok(ToConsultarResponse(repository.rows[id]))
      ensures id !in repository.rows ==> r == Err(NotFound(CHAVE_NAO_ENCONTRADA))
    {
      var chave := repository.BuscarPorId(id);
      if chave.None? {
        return Err(NotFound(CHAVE_NAO_ENCONTRADA));
      }
      return Ok(ToConsultarResponse(ToEntity(chave.value)));
    }

    /**
     * consultarPorConta: one response per stored key of the account, in the
     * order saved; an account without keys is CHAVE_NAO_ENCONTRADA.
     */
    function ConsultarPorConta(agencia: Option<Int32>, numeroConta: Option<Int32>)
      : (r: Result<seq<ConsultarChavePixResponse>>)
      reads repository
      requires repository.Valid()
      ensures r.Err? <==> forall id :: id in repository.rows ==>
        !(repository.rows[id].numeroAgencia == agencia && repository.rows[id].numeroConta == numeroConta)
      ensures r.Err? ==> r.error == NotFound(CHAVE_NAO_ENCONTRADA)
      ensures r.Ok? ==> var chaves := repository.BuscarPorConta(agencia, numeroConta);
        && |r.value| == |chaves|
        && forall i :: 0 <= i < |chaves| ==> r.value[i] == ToConsultarResponse(chaves[i])
    {
      var chaves := repository.BuscarPorConta(agencia, numeroConta);
      assert chaves == [] <==> forall id :: id in repository.rows ==>
        !(repository.rows[id].numeroAgencia == agencia && repository.rows[id].numeroConta == numeroConta)
      by {
        if chaves != [] {
          assert chaves[0] in chaves;
        }
        forall id | id in repository.rows &&
          repository.rows[id].numeroAgencia == agencia && repository.rows[id].numeroConta == numeroConta
          ensures chaves != []
        {
          assert repository.rows[id] in chaves;
        }
      }
      if chaves == [] then Err(NotFound(CHAVE_NAO_ENCONTRADA))
      else Ok(ToConsultarResponseList(chaves))
    }

    /**
     * consultarPorNome: one response per stored key with this first name, in
     * the order saved; no match is an empty answer, not an error.
     */
    function ConsultarPorNome(nomeCorrentista: string): (r: seq<ConsultarChavePixResponse>)
      reads repository
      requires repository.Valid()
      ensures var chaves := repository.BuscarPorNome(nomeCorrentista);
        && |r| == |chaves|
        && forall i :: 0 <= i < |chaves| ==> r[i] == ToConsultarResponse(chaves[i])
      ensures (forall id :: id in repository.rows ==>
                repository.rows[id].nomeCorrentista != Some(nomeCorrentista)) ==> r == []
    {
      var chaves := repository.BuscarPorNome(nomeCorrentista);
      assert chaves != [] ==> chaves[0] in chaves;
      ToConsultarResponseList(chaves)
    }
  }
}
