/**
 * The ValidadorChaveStrategy implementations as one sum type, and
 * ValidadorChaveFactory, the map from key type to strategy built once from a list.
 */
module ValidadorChave {
  import opened Wrappers
  import opened Errors
  import opened Domain
  import CpfValidation
  import CnpjValidation
  import EmailValidation
  import CelularValidation
  import AleatoriaValidation

  /** The five classes implementing ValidadorChaveStrategy. */
  datatype Strategy =
    | CpfValidator
    | CnpjValidator
    | EmailValidator
    | CelularValidator
    | AleatoriaValidator

  /** ValidadorChaveStrategy.getTipoChave of each implementation. */
  function GetTipoChave(e: Strategy): TipoChave
  {
    match e
    case CpfValidator => CpfValidation.Tipo
    case CnpjValidator => CnpjValidation.Tipo
    case EmailValidator => EmailValidation.Tipo
    case CelularValidator => CelularValidation.Tipo
    case AleatoriaValidator => AleatoriaValidation.Tipo
  }

  /** What ValidadorChaveStrategy.validar of each implementation decides. */
  function Spec(e: Strategy, valor: Option<string>): Outcome
  {
    match e
    case CpfValidator => CpfValidation.Spec(valor)
    case CnpjValidator => CnpjValidation.Spec(valor)
    case EmailValidator => EmailValidation.Validar(valor)
    case CelularValidator => CelularValidation.Validar(valor)
    case AleatoriaValidator => AleatoriaValidation.Validar(valor)
  }

  /** ValidadorChaveStrategy.validar, dispatched on the implementation. */
  method Validar(e: Strategy, valor: Option<string>) returns (r: Outcome)
    ensures r == Spec(e, valor)
  {
    match e
    case CpfValidator => r := CpfValidation.Validar(valor);
    case CnpjValidator => r := CnpjValidation.Validar(valor);
    case EmailValidator => r := EmailValidation.Validar(valor);
    case CelularValidator => r := CelularValidation.Validar(valor);
    case AleatoriaValidator => r := AleatoriaValidation.Validar(valor);
  }

  /** The implementation that declares itself for a key type. */
  function StrategyFor(t: TipoChave): (e: Strategy)
    ensures GetTipoChave(e) == t
  {
    match t
    case CPF => CpfValidator
    case CNPJ => CnpjValidator
    case EMAIL => EmailValidator
    case CELULAR => CelularValidator
    case ALEATORIA => AleatoriaValidator
  }

  /** The format rule of a key type, as the per-type strategy decides it. */
  function FormatSpec(t: TipoChave, valor: Option<string>): Outcome
  {
    Spec(StrategyFor(t), valor)
  }

  /** The error code of each key type's format rule. */
  function FormatCode(t: TipoChave): Code
  {
    match t
    case CPF => CPF_INVALIDO
    case CNPJ => CNPJ_INVALIDO
    case EMAIL => EMAIL_INVALIDO
    case CELULAR => CELULAR_INVALIDO
    case ALEATORIA => ALEATORIA_INVALIDA
  }

  /** Every format rule refuses a null value, with its own type's code. */
  lemma FormatRefusesNull(t: TipoChave)
    ensures FormatSpec(t, None) == Fail(Unprocessable(FormatCode(t)))
  {
  }

  /** Each implementation is the only one declaring its key type. */
  lemma StrategyForUnique(e: Strategy)
    ensures StrategyFor(GetTipoChave(e)) == e
  {
  }

  predicate DistinctTypes(es: seq<Strategy>)
  {
    forall i, j :: 0 <= i < j < |es| ==> GetTipoChave(es[i]) != GetTipoChave(es[j])
  }

  /**
   * Collectors.toMap(getTipoChave, identity) over the list, in order: it fails
   * with IllegalStateException on the first key met twice.
   */
  function ToMap(es: seq<Strategy>): (r: Result<map<TipoChave, Strategy>>)
    ensures r.Ok? <==> DistinctTypes(es)
    ensures r.Ok? ==> r.value.Keys == set e | e in es :: GetTipoChave(e)
    ensures r.Ok? ==> forall e :: e in es ==> r.value[GetTipoChave(e)] == e
    ensures r.Err? ==> r.error == IllegalState(TipoChaveDuplicado)
  {
    if es == [] then Ok(map[])
    else
      var init, last := es[..|es| - 1], es[|es| - 1];
      assert es == init + [last];
      match ToMap(init)
      case Err(e) => Err(e)
      case Ok(m) =>
        if GetTipoChave(last) in m then
          assert exists i :: 0 <= i < |init| && GetTipoChave(init[i]) == GetTipoChave(last);
          Err(IllegalState(TipoChaveDuplicado))
        else
          Ok(m[GetTipoChave(last) := last])
  }

  /** ValidadorChaveFactory: its final map from key type to strategy. */
  datatype ValidadorChaveFactory = ValidadorChaveFactory(strategyMap: map<TipoChave, Strategy>)

  /** The list constructor: each strategy registered under its own getTipoChave. */
  function FromList(es: seq<Strategy>): (r: Result<ValidadorChaveFactory>)
    ensures r.Ok? <==> DistinctTypes(es)
    ensures r.Ok? ==> forall e :: e in es ==> GetStrategy(r.value, GetTipoChave(e)) == Ok(e)
    ensures r.Err? ==> r.error == IllegalState(TipoChaveDuplicado)
  {
    match ToMap(es)
    case Ok(m) => Ok(ValidadorChaveFactory(m))
    case Err(e) => Err(e)
  }

  /**
   * getStrategy: the strategy registered for the type, or IllegalArgumentException
   * when there is none.
   */
  function GetStrategy(f: ValidadorChaveFactory, t: TipoChave): (r: Result<Strategy>)
    ensures r.Ok? <==> t in f.strategyMap
    ensures r.Ok? ==> r.value == f.strategyMap[t]
    ensures r.Err? ==> r.error == IllegalArgument(TipoChaveSemEstrategia)
  {
    if t !in f.strategyMap then Err(IllegalArgument(TipoChaveSemEstrategia))
    else Ok(f.strategyMap[t])
  }

  /** The five implementations, as Spring collects them. */
  const AllStrategies: seq<Strategy> :=
    [CpfValidator, CnpjValidator, EmailValidator, CelularValidator, AleatoriaValidator]

  /**
   * With all five implementations registered, every key type resolves to the
   * strategy declaring that type, and validating through the factory decides
   * exactly what the per-type rule decides.
   */
  lemma FullRegistry(t: TipoChave, valor: Option<string>)
    ensures FromList(AllStrategies).Ok?
    ensures GetStrategy(FromList(AllStrategies).value, t) == Ok(StrategyFor(t))
    ensures Spec(GetStrategy(FromList(AllStrategies).value, t).value, valor) == FormatSpec(t, valor)
  {
    var es := AllStrategies;
    assert DistinctTypes(es);
    assert StrategyFor(t) in es;
  }

  /** Registering two strategies for one key type makes construction fail. */
  lemma DuplicateRegistration(e: Strategy, es: seq<Strategy>)
    requires e in es
    ensures FromList(es + [e]).Err?
  {
    var all := es + [e];
    var i :| 0 <= i < |es| && es[i] == e;
    assert all[i] == e && all[|es|] == e;
  }
}
