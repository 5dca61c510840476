/** TipoConta: the account kinds, their self-check and the lenient parser. */
module TipoContaEnum {
  import opened Errors
  import opened Wrappers
  import opened Text

  datatype TipoConta = CORRENTE | POUPANCA

  /** Enum.name(). */
  function Name(t: TipoConta): string
  {
    match t
    case CORRENTE => "CORRENTE"
    case POUPANCA => "POUPANCA"
  }

  /**
   * TipoConta.validar: the name must have at most 10 characters and be one of
   * the two allowed names. Both constants satisfy it, so it never fails.
   */
  function Validar(t: TipoConta): (r: Outcome)
    ensures r == Pass
  {
    var nome := Name(t);
    if |nome| > 10 then Fail(IllegalArgument(TipoContaExcedeTamanho))
    else if nome != "CORRENTE" && nome != "POUPANCA" then Fail(IllegalArgument(TipoContaForaDoConjunto))
    else Pass
  }

  /** Enum.valueOf: the constant with exactly this name. */
  function ValueOf(nome: string): (r: Result<TipoConta>)
    ensures r.Ok? <==> exists t :: Name(t) == nome
    ensures r.Ok? ==> Name(r.value) == nome
    ensures r.Err? ==> r.error == IllegalArgument(TipoContaDesconhecido)
  {
    if nome == Name(CORRENTE) then Ok(CORRENTE)
    else if nome == Name(POUPANCA) then Ok(POUPANCA)
    else Err(IllegalArgument(TipoContaDesconhecido))
  }

  /**
   * TipoConta.fromString: null is refused; otherwise the text is trimmed and
   * upper-cased and must then be a constant's name.
   */
  function FromString(valor: Option<string>): (r: Result<TipoConta>)
    ensures valor.None? ==> r == Err(IllegalArgument(TipoContaNulo))
    ensures valor.Some? ==> (r.Ok? <==> exists t :: Name(t) == ToUpper(Trim(valor.value)))
    ensures r.Ok? ==> valor.Some? && Name(r.value) == ToUpper(Trim(valor.value))
    ensures valor.Some? && r.Err? ==> r.error == IllegalArgument(TipoContaDesconhecido)
  {
    if valor.None? then Err(IllegalArgument(TipoContaNulo))
    else ValueOf(ToUpper(Trim(valor.value)))
  }

  lemma UpperOfUpper(s: string)
    requires forall i :: 0 <= i < |s| ==> !('a' <= s[i] <= 'z')
    ensures ToUpper(s) == s
  {
  }

  /** Round trip: parsing a constant's name gives back that constant. */
  lemma FromStringName(t: TipoConta)
    ensures FromString(Some(Name(t))) == Ok(t)
  {
    var n := Name(t);
    TrimOfTrimmed(n);
    UpperOfUpper(n);
  }

  /** Padding with blanks and writing in lower case do not change the result. */
  lemma FromStringPadded(before: string, s: string, after: string)
    requires AllTrimmable(before) && AllTrimmable(after)
    ensures FromString(Some(before + s + after)) == FromString(Some(s))
  {
    TrimIgnoresPadding(before, s, after);
  }

  /** " poupanca " is read as POUPANCA. */
  lemma FromStringExample()
    ensures FromString(Some(" poupanca ")) == Ok(POUPANCA)
  {
    assert " poupanca " == " " + "poupanca" + " ";
    FromStringPadded(" ", "poupanca", " ");
    TrimOfTrimmed("poupanca");
    assert ToUpper("poupanca") == "POUPANCA";
  }

  /** Text that is no constant's name once normalised is refused. */
  lemma FromStringUnknown(s: string)
    requires ToUpper(Trim(s)) != "CORRENTE" && ToUpper(Trim(s)) != "POUPANCA"
    ensures FromString(Some(s)) == Err(IllegalArgument(TipoContaDesconhecido))
  {
  }
}
