/** ChavePixMapper: field-by-field copies between the domain record and the stored row. */
module ChavePixMapper {
  import opened ChavePixModel
  import opened ChavePixEntityModel

  /** toEntity: the row holding the record's eleven fields as they are now. */
  function ToEntity(c: ChavePix): ChavePixEntity
    reads c
  {
    ChavePixEntity(
      c.id, c.tipoChave, c.valorChave, c.tipoConta, c.tipoPessoa,
      c.numeroAgencia, c.numeroConta, c.nomeCorrentista, c.sobrenomeCorrentista,
      c.dataHoraInclusao, c.dataHoraInativacao)
  }

  /** Two records map to the same row exactly when their eleven fields agree. */
  predicate SameFields(c: ChavePix, d: ChavePix)
    reads c, d
  {
    && c.id == d.id && c.tipoChave == d.tipoChave && c.valorChave == d.valorChave
    && c.tipoConta == d.tipoConta && c.tipoPessoa == d.tipoPessoa
    && c.numeroAgencia == d.numeroAgencia && c.numeroConta == d.numeroConta
    && c.nomeCorrentista == d.nomeCorrentista
    && c.sobrenomeCorrentista == d.sobrenomeCorrentista
    && c.dataHoraInclusao == d.dataHoraInclusao
    && c.dataHoraInativacao == d.dataHoraInativacao
  }

  /** The row determines the record: equal rows mean field-wise equal records. */
  lemma ToEntityInjective(c: ChavePix, d: ChavePix)
    ensures ToEntity(c) == ToEntity(d) <==> SameFields(c, d)
    ensures ToEntity(c) == ToEntity(d) ==> (c.EstaInativa() <==> d.EstaInativa())
  {
  }

  /**
   * toDomain: a new record built with the all-arguments constructor, which
   * validates nothing, so any row can be rebuilt; toEntity(toDomain(e)) == e.
   */
  method ToDomain(e: ChavePixEntity) returns (c: ChavePix)
    ensures fresh(c)
    ensures ToEntity(c) == e
  {
    c := new ChavePix(
      e.id, e.tipoChave, e.valorChave, e.tipoConta, e.tipoPessoa,
      e.numeroAgencia, e.numeroConta, e.nomeCorrentista, e.sobrenomeCorrentista,
      e.dataHoraInclusao, e.dataHoraInativacao);
  }

  /** toDomain(toEntity(c)) is a new record field-wise equal to c, inactive exactly when c is. */
  method RoundTrip(c: ChavePix) returns (d: ChavePix)
    ensures fresh(d)
    ensures SameFields(c, d) && (d.EstaInativa() <==> c.EstaInativa())
  {
    d := ToDomain(ToEntity(c));
    ToEntityInjective(c, d);
  }
}
