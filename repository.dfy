/**
 * ChavePixRepository: the store behind the port, held in memory. Rows are kept
 * by id; `ids` remembers the order in which they were first saved, which is the
 * order the list queries answer in.
 */
module ChavePixRepositoryModel {
  import opened Wrappers
  import opened Errors
  import opened Domain
  import opened ChavePixEntityModel
  import opened ChavePixModel
  import opened ChavePixMapper

  /** The derived queries of ChavePixJpaRepository, as the condition a row must meet. */
  datatype Criterio =
    | ValorIgual(valorChave: string)
    | ContaIgual(agencia: Option<Int32>, numeroConta: Option<Int32>)
    | NomeIgual(nomeCorrentista: string)

  predicate Atende(q: Criterio, e: ChavePixEntity)
  {
    match q
    case ValorIgual(v) => e.valorChave == v
    case ContaIgual(ag, conta) => e.numeroAgencia == ag && e.numeroConta == conta
    case NomeIgual(nome) => e.nomeCorrentista == Some(nome)
  }

  /** The rows of `s` that meet `q`, in their order in `s`. */
  function Filter(s: seq<ChavePixEntity>, q: Criterio): (r: seq<ChavePixEntity>)
    ensures |r| <= |s|
    ensures forall x :: x in r <==> x in s && Atende(q, x)
  {
    if s == [] then []
    else if Atende(q, s[0]) then [s[0]] + Filter(s[1..], q)
    else Filter(s[1..], q)
  }

  /** Filtering a list extended by one row extends the answer by it when it qualifies. */
  lemma {:induction false} FilterAppend(s: seq<ChavePixEntity>, x: ChavePixEntity, q: Criterio)
    ensures Filter(s + [x], q) == Filter(s, q) + (if Atende(q, x) then [x] else [])
  {
    if s == [] {
      assert s + [x] == [x];
    } else {
      assert (s + [x])[1..] == s[1..] + [x];
      FilterAppend(s[1..], x, q);
    }
  }

  /** A list without repetitions: its tail has none, and its head is not in its tail. */
  lemma DistinctSplit(s: seq<ChavePixEntity>)
    requires |s| > 0
    requires forall i, j :: 0 <= i < j < |s| ==> s[i] != s[j]
    ensures forall i, j :: 0 <= i < j < |s[1..]| ==> s[1..][i] != s[1..][j]
    ensures s[0] !in s[1..]
  {
    forall i, j | 0 <= i < j < |s[1..]|
      ensures s[1..][i] != s[1..][j]
    {
      assert s[1..][i] == s[i + 1] && s[1..][j] == s[j + 1];
    }
    forall i | 0 <= i < |s[1..]|
      ensures s[1..][i] != s[0]
    {
      assert s[1..][i] == s[i + 1];
    }
  }

  /** The qualifying rows of a list are those of its tail, plus its head when it qualifies. */
  lemma QualifyingSplit(s: seq<ChavePixEntity>, q: Criterio)
    requires |s| > 0
    ensures (set x | x in s && Atende(q, x))
         == (set x | x in s[1..] && Atende(q, x)) + (if Atende(q, s[0]) then {s[0]} else {})
  {
    assert s == [s[0]] + s[1..];
  }

  /** Over a list without repetitions, the answer is as long as the set of rows that qualify. */
  lemma {:induction false} FilterDistinctCount(s: seq<ChavePixEntity>, q: Criterio)
    requires forall i, j :: 0 <= i < j < |s| ==> s[i] != s[j]
    ensures |Filter(s, q)| == |set x | x in s && Atende(q, x)|
  {
    if s == [] {
      assert (set x | x in s && Atende(q, x)) == {};
    } else {
      DistinctSplit(s);
      FilterDistinctCount(s[1..], q);
      QualifyingSplit(s, q);
    }
  }

  class Repositorio {
    var rows: map<Uuid, ChavePixEntity>
    var ids: seq<Uuid>

    /**
     * `ids` lists each stored id once; each row sits under its own id; no two
     * rows share a key value (the unique column); every row fits the columns.
     */
    ghost predicate Valid()
      reads this
    {
      && (forall i, j :: 0 <= i < j < |ids| ==> ids[i] != ids[j])
      && (forall id :: id in rows <==> id in ids)
      && (forall id :: id in rows ==> rows[id].id == id)
      && (forall id1, id2 ::
            id1 in rows && id2 in rows && rows[id1].valorChave == rows[id2].valorChave ==> id1 == id2)
      && (forall id :: id in rows ==> ColumnsFit(rows[id]))
    }

    constructor ()
      ensures Valid() && rows == map[] && ids == []
    {
      rows := map[];
      ids := [];
    }

    /** The stored rows, in the order they were first saved. */
    function Entries(): (r: seq<ChavePixEntity>)
      reads this
      requires Valid()
      ensures |r| == |ids|
      ensures forall e :: e in r <==> exists id :: id in rows && rows[id] == e
    {
      var listed, stored := ids, rows;
      var r := seq(|listed|, i requires 0 <= i < |listed| && listed[i] in stored => stored[listed[i]]);
      assert forall id :: id in rows ==> rows[id] in r by {
        forall id | id in rows
          ensures rows[id] in r
        {
          var i :| 0 <= i < |ids| && ids[i] == id;
          assert r[i] == rows[id];
        }
      }
      r
    }

    /**
     * chaveJaExiste: some stored row holds this key value. A null value is
     * looked up as IS NULL, which no row meets: valor_chave is not null.
     */
    function ChaveJaExiste(valorChave: Option<string>): (r: bool)
      reads this
      requires Valid()
      ensures r <==> valorChave.Some? && exists id :: id in rows && rows[id].valorChave == valorChave.value
    {
      if valorChave.None? then false
      else
        var v := valorChave.value;
        var matching := Filter(Entries(), ValorIgual(v));
        assert (exists id :: id in rows && rows[id].valorChave == v) ==> matching != [] by {
          if exists id :: id in rows && rows[id].valorChave == v {
            var id :| id in rows && rows[id].valorChave == v;
            assert rows[id] in matching;
          }
        }
        assert matching != [] ==> exists id :: id in rows && rows[id].valorChave == v by {
          if matching != [] {
            assert matching[0] in matching;
          }
        }
        matching != []
    }

    /**
     * buscarPorConta: every stored row of the branch and account pair, active
     * or not, in the order they were saved.
     */
    function BuscarPorConta(agencia: Option<Int32>, numeroConta: Option<Int32>): (r: seq<ChavePixEntity>)
      reads this
      requires Valid()
      ensures |r| <= |rows|
      ensures forall e :: e in r <==>
        (exists id :: id in rows && rows[id] == e) &&
        e.numeroAgencia == agencia && e.numeroConta == numeroConta
      ensures |r| == |set e | e in rows.Values && Atende(ContaIgual(agencia, numeroConta), e)|
    {
      CardinalityOfIds();
      var q := ContaIgual(agencia, numeroConta);
      EntriesDistinct();
      FilterDistinctCount(Entries(), q);
      ListedMeeting(q);
      Filter(Entries(), q)
    }

    /** The listed rows that meet a query are the stored rows that meet it. */
    lemma ListedMeeting(q: Criterio)
      requires Valid()
      ensures (set x | x in Entries() && Atende(q, x)) == (set e | e in rows.Values && Atende(q, e))
    {
      forall e | e in rows.Values
        ensures e in Entries()
      {
        var id :| id in rows && rows[id] == e;
      }
    }

    /** No row is listed twice. */
    lemma EntriesDistinct()
      requires Valid()
      ensures forall i, j :: 0 <= i < j < |Entries()| ==> Entries()[i] != Entries()[j]
    {
      var es := Entries();
      forall i, j | 0 <= i < j < |es|
        ensures es[i] != es[j]
      {
        assert es[i].id == ids[i] && es[j].id == ids[j];
      }
    }

    /** buscarPorNome: every stored row whose first name is this one, in the order saved. */
    function BuscarPorNome(nomeCorrentista: string): (r: seq<ChavePixEntity>)
      reads this
      requires Valid()
      ensures forall e :: e in r <==>
        (exists id :: id in rows && rows[id] == e) && e.nomeCorrentista == Some(nomeCorrentista)
    {
      Filter(Entries(), NomeIgual(nomeCorrentista))
    }

    /** As many ids are listed as rows are stored. */
    lemma CardinalityOfIds()
      requires Valid()
      ensures |ids| == |rows|
    {
      DistinctListCardinality(ids, rows.Keys);
    }

    /** buscarPorId: a new record rebuilt from the row, or nothing when the id is unknown. */
    method BuscarPorId(id: Uuid) returns (r: Option<ChavePix>)
      requires Valid()
      ensures r.Some? <==> id in rows
      ensures r.Some? ==> fresh(r.value) && ToEntity(r.value) == rows[id]
    {
      if id !in rows {
        return None;
      }
      var c := ToDomain(rows[id]);
      return Some(c);
    }

    /**
     * salvar: the row of the record replaces the row under its id, or is added
     * after the others when the id is new. The store refuses a row that breaks
     * the column constraints or whose key value another row already holds, and
     * then stays as it was.
     */
    method Salvar(c: ChavePix) returns (r: Outcome)
      requires Valid()
      modifies this
      ensures Valid()
      ensures var e := ToEntity(c);
        if !ColumnsFit(e) then
          r == Fail(ColumnViolation) && unchanged(this)
        else if exists id :: id in old(rows) && id != e.id && old(rows)[id].valorChave == e.valorChave then
          r == Fail(UniqueViolation) && unchanged(this)
        else
          && r == Pass
          && rows == old(rows)[e.id := e]
          && ids == (if e.id in old(rows) then old(ids) else old(ids) + [e.id])
      ensures r == Pass && ToEntity(c).id !in old(rows) ==> Entries() == old(Entries()) + [ToEntity(c)]
    {
      var e := ToEntity(c);
      if !ColumnsFit(e) {
        return Fail(ColumnViolation);
      }
      var conflito := exists id | id in rows && id != e.id :: rows[id].valorChave == e.valorChave;
      if conflito {
        return Fail(UniqueViolation);
      }
      ghost var antes := Entries();
      if e.id !in rows {
        ids := ids + [e.id];
        rows := rows[e.id := e];
        assert Valid();
        assert Entries() == antes + [e] by {
          forall i | 0 <= i < |antes|
            ensures Entries()[i] == antes[i]
          {
            assert ids[i] != e.id;
          }
        }
      } else {
        rows := rows[e.id := e];
      }
      return Pass;
    }
  }

  /** A list without repetitions is as long as the set of its elements. */
  lemma {:induction false} DistinctListCardinality(s: seq<Uuid>, keys: set<Uuid>)
    requires forall i, j :: 0 <= i < j < |s| ==> s[i] != s[j]
    requires forall x :: x in keys <==> x in s
    ensures |s| == |keys|
  {
    if s != [] {
      var rest := keys - {s[0]};
      forall x | x in rest
        ensures x in s[1..]
      {
        var i :| 0 <= i < |s| && s[i] == x;
        assert i != 0;
      }
      forall x | x in s[1..]
        ensures x in rest
      {
        var i :| 1 <= i < |s| && s[i] == x;
        assert s[i] != s[0];
      }
      DistinctListCardinality(s[1..], rest);
    }
  }
}
