/** The customer entity (Kunde): its map codecs, validity sentinel, and the SQL
    statements and column vectors used by the bulk relational import. */
module KundeEntity {
  import opened Qt

  // keys of the map views used by the application
  const NrKey := "nr"
  const NameKey := "name"
  const OrtKey := "ort"

  // keys of the foreign (server) view
  const NrForeignKey := "nr"
  const NameForeignKey := "name"
  const OrtForeignKey := "ort"

  class Kunde {
    var nr: int       // domain key, -1 while unset
    var name: string
    var ort: string

    /** A default-constructed customer has the unset key and so is not valid. */
    constructor ()
      ensures nr == -1 && name == "" && ort == ""
      ensures !IsValid()
    {
      nr, name, ort := -1, "", "";
    }

    predicate IsValid()
      reads this
    {
      nr != -1
    }

    /** Absent keys fall back to QVariant's defaults: nr 0, empty strings. */
    method FillFromMap(m: VariantMap)
      modifies this
      ensures nr == ToInt(Value(m, NrKey))
      ensures name == ToStr(Value(m, NameKey)) && ort == ToStr(Value(m, OrtKey))
    {
      nr := ToInt(Value(m, NrKey));
      name := ToStr(Value(m, NameKey));
      ort := ToStr(Value(m, OrtKey));
    }

    method FillFromForeignMap(m: VariantMap)
      modifies this
      ensures nr == ToInt(Value(m, NrForeignKey))
      ensures name == ToStr(Value(m, NameForeignKey)) && ort == ToStr(Value(m, OrtForeignKey))
    {
      nr := ToInt(Value(m, NrForeignKey));
      name := ToStr(Value(m, NameForeignKey));
      ort := ToStr(Value(m, OrtForeignKey));
    }

    method FillFromCacheMap(m: VariantMap)
      modifies this
      ensures nr == ToInt(Value(m, NrKey))
      ensures name == ToStr(Value(m, NameKey)) && ort == ToStr(Value(m, OrtKey))
    {
      nr := ToInt(Value(m, NrKey));
      name := ToStr(Value(m, NameKey));
      ort := ToStr(Value(m, OrtKey));
    }

    /** The full view; reading it back with FillFromMap restores all three fields. */
    function ToMap(): (m: VariantMap)
      reads this
      ensures m.Keys == {NrKey, NameKey, OrtKey}
      ensures ToInt(Value(m, NrKey)) == nr
      ensures ToStr(Value(m, NameKey)) == name && ToStr(Value(m, OrtKey)) == ort
    {
      map[NrKey := IntV(nr), NameKey := StrV(name), OrtKey := StrV(ort)]
    }

    /** The foreign view, which FillFromForeignMap reads back. */
    function ToForeignMap(): (m: VariantMap)
      reads this
      ensures m.Keys == {NrForeignKey, NameForeignKey, OrtForeignKey}
      ensures ToInt(Value(m, NrForeignKey)) == nr
      ensures ToStr(Value(m, NameForeignKey)) == name && ToStr(Value(m, OrtForeignKey)) == ort
    {
      map[NrForeignKey := IntV(nr), NameForeignKey := StrV(name), OrtForeignKey := StrV(ort)]
    }

    /** There are no transient properties: the cache view is the full view. */
    function ToCacheMap(): (m: VariantMap)
      reads this
      ensures m == ToMap()
    {
      ToMap()
    }

    /** Appends this customer's columns to the three parallel column vectors. */
    method ToSqlCache(nrList: seq<Variant>, nameList: seq<Variant>, ortList: seq<Variant>)
      returns (nrs: seq<Variant>, names: seq<Variant>, orts: seq<Variant>)
      ensures nrs == nrList + [IntV(nr)]
      ensures names == nameList + [StrV(name)]
      ensures orts == ortList + [StrV(ort)]
      ensures |nrList| == |nameList| == |ortList| ==> |nrs| == |names| == |orts| == |nrList| + 1
    {
      nrs := nrList + [IntV(nr)];
      names := nameList + [StrV(name)];
      orts := ortList + [StrV(ort)];
    }
  }

  /** A map without an nr key gives nr 0, not the unset sentinel -1. */
  lemma MissingNrIsZero(m: VariantMap)
    requires NrKey !in m
    ensures ToInt(Value(m, NrKey)) == 0 != -1
  {
  }

  /** What FillFromMap and FillFromCacheMap leave in k. */
  predicate FilledFrom(k: Kunde, m: VariantMap)
    reads k
  {
    k.nr == ToInt(Value(m, NrKey)) && k.name == ToStr(Value(m, NameKey)) && k.ort == ToStr(Value(m, OrtKey))
  }

  /** A customer filled from the cache view of another one carries the same
      number, name and place. */
  lemma CacheRoundTrip(src: Kunde, k: Kunde)
    requires FilledFrom(k, src.ToCacheMap())
    ensures k.nr == src.nr && k.name == src.name && k.ort == src.ort
  {
  }

  /** The domain keys of a customer collection, in collection order. */
  function Nrs(ks: seq<Kunde>): (nrs: seq<int>)
    reads ks
    ensures |nrs| == |ks|
    ensures forall i :: 0 <= i < |ks| ==> nrs[i] == ks[i].nr
  {
    if |ks| == 0 then [] else [ks[0].nr] + Nrs(ks[1..])
  }

  // S Q L

  /** The columns of the kunde table, in the order the statements list them. */
  const Columns := [NrKey, NameKey, OrtKey]

  /** The column definitions of CREATE TABLE, one per column, in column order. */
  const ColumnDefinitions := [NrKey + " INTEGER" + " PRIMARY KEY", NameKey + " TEXT", OrtKey + " TEXT"]

  /** Each part followed by ", ": what the generated code appends, part by part. */
  function EachWithSeparator(parts: seq<string>): string
  {
    if |parts| == 0 then "" else EachWithSeparator(parts[..|parts| - 1]) + parts[|parts| - 1] + ", "
  }

  /** The parts separated by ", ", with nothing after the last one. */
  function Joined(parts: seq<string>): string
  {
    if |parts| == 0 then ""
    else if |parts| == 1 then parts[0]
    else Joined(parts[..|parts| - 1]) + ", " + parts[|parts| - 1]
  }

  /** A named placeholder per column: ":" and the column name. */
  function NamedPlaceholders(columns: seq<string>): (ps: seq<string>)
    ensures |ps| == |columns| && forall i :: 0 <= i < |columns| ==> ps[i] == ":" + columns[i]
  {
    seq(|columns|, i requires 0 <= i < |columns| => ":" + columns[i])
  }

  /** A positional placeholder "?" per column. */
  function PositionalPlaceholders(columns: seq<string>): (ps: seq<string>)
    ensures |ps| == |columns| && forall i :: 0 <= i < |columns| ==> ps[i] == "?"
  {
    seq(|columns|, _ => "?")
  }

  /** The statement is built column by column, each definition followed by
      ", ", and the last separator is cut off before the closing parenthesis:
      the definitions end up separated, with none trailing. */
  function CreateTableCommand(): (sql: string)
    ensures sql == "CREATE TABLE kunde (" + Joined(ColumnDefinitions) + ");"
  {
    var s := "CREATE TABLE kunde (" + EachWithSeparator(ColumnDefinitions);
    CutLastSeparator("CREATE TABLE kunde (", ColumnDefinitions);
    Left(s, |s| - 2) + ");"
  }

  /** INSERT naming every column and binding each by name, in column order. */
  function CreateParameterizedInsertNameBinding(): (sql: string)
    ensures sql == "INSERT INTO kunde (" + Joined(Columns) + ") "
      + " VALUES (" + Joined(NamedPlaceholders(Columns)) + ") "
  {
    var insertSql := "INSERT INTO kunde (" + EachWithSeparator(Columns);
    var valueSql := " VALUES (" + EachWithSeparator(NamedPlaceholders(Columns));
    CutLastSeparator("INSERT INTO kunde (", Columns);
    CutLastSeparator(" VALUES (", NamedPlaceholders(Columns));
    Left(insertSql, |insertSql| - 2) + ") " + Left(valueSql, |valueSql| - 2) + ") "
  }

  /** INSERT naming every column and binding each by position, in column order. */
  function CreateParameterizedInsertPosBinding(): (sql: string)
    ensures sql == "INSERT INTO kunde (" + Joined(Columns) + ") "
      + " VALUES (" + Joined(PositionalPlaceholders(Columns)) + ") "
  {
    var insertSql := "INSERT INTO kunde (" + EachWithSeparator(Columns);
    var valueSql := " VALUES (" + EachWithSeparator(PositionalPlaceholders(Columns));
    CutLastSeparator("INSERT INTO kunde (", Columns);
    CutLastSeparator(" VALUES (", PositionalPlaceholders(Columns));
    Left(insertSql, |insertSql| - 2) + ") " + Left(valueSql, |valueSql| - 2) + ") "
  }

  /** Appending every part with its separator is the joined parts plus one
      trailing separator. */
  lemma {:induction false} EachIsJoinedAndSeparator(parts: seq<string>)
    requires |parts| > 0
    ensures EachWithSeparator(parts) == Joined(parts) + ", "
  {
    var front, last := parts[..|parts| - 1], parts[|parts| - 1];
    if |front| > 0 {
      EachIsJoinedAndSeparator(front);
      assert EachWithSeparator(parts) == Joined(front) + ", " + last + ", ";
    } else {
      assert EachWithSeparator(parts) == "" + last + ", ";
    }
  }

  /** Cutting the last two characters after a non-empty list of parts leaves
      the parts joined, with no separator trailing. */
  lemma CutLastSeparator(prefix: string, parts: seq<string>)
    requires |parts| > 0
    ensures var s := prefix + EachWithSeparator(parts); Left(s, |s| - 2) == prefix + Joined(parts)
  {
    EachIsJoinedAndSeparator(parts);
    CutSeparator(prefix + Joined(parts));
    assert prefix + EachWithSeparator(parts) == (prefix + Joined(parts)) + ", ";
  }

  /** Cutting the last two characters removes exactly the trailing separator. */
  lemma CutSeparator(s: string)
    ensures Left(s + ", ", |s + ", "| - 2) == s
  {
    assert (s + ", ")[..|s|] == s;
  }
}
