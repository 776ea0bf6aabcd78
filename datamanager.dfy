/** The entity store: the ordered collections of customers, orders and
    keywords, their insert / delete / find / batch-lookup operations, the
    reference-resolution pass over the orders, the record-list loops of the
    caches, and the chunked bulk import of the customers into SQLite. */
module DataManagement {
  import opened Qt
  import opened Seqs
  import opened UuidGen
  import opened LazyRefs
  import opened KeyLookup
  import opened Chunks
  import opened SqlCache
  import K = KundeEntity
  import A = AuftragEntity
  import S = SchlagwortEntity

  /** The chunk size initDatabase sets. */
  const DefaultChunkSize := 10000

  /** QString::number of every key, in order: the lookup keys of customers and orders. */
  function Numbers(nrs: seq<int>): (keys: seq<string>)
    ensures |keys| == |nrs|
    ensures forall i :: 0 <= i < |nrs| ==> keys[i] == NumberString(nrs[i])
  {
    if |nrs| == 0 then [] else [NumberString(nrs[0])] + Numbers(nrs[1..])
  }

  /** The domain keys of an order collection, in collection order. */
  function AuftragNrs(os: seq<A.Auftrag>): (nrs: seq<int>)
    reads os
    ensures |nrs| == |os|
    ensures forall i :: 0 <= i < |os| ==> nrs[i] == os[i].nr
  {
    if |os| == 0 then [] else [os[0].nr] + AuftragNrs(os[1..])
  }

  /** The rows toSqlCache contributes, one per customer, in collection order. */
  function KundeRows(ks: seq<K.Kunde>): (rows: seq<Row>)
    reads ks
    ensures |rows| == |ks|
    ensures forall i :: 0 <= i < |ks| ==> rows[i] == Row(IntV(ks[i].nr), StrV(ks[i].name), StrV(ks[i].ort))
  {
    if |ks| == 0 then [] else [Row(IntV(ks[0].nr), StrV(ks[0].name), StrV(ks[0].ort))] + KundeRows(ks[1..])
  }

  /** The customer reference after one resolution pass over the customers
      ks: a reference that has a key but no object is bound to the first
      customer with that number, or marked invalid when there is none. */
  function ResolvedCustomer(r: ScalarRef<K.Kunde>, ks: seq<K.Kunde>): ScalarRef<K.Kunde>
    reads ks
  {
    if r.Has() && !r.IsResolved() then
      (if r.key in K.Nrs(ks) then r.Resolve(ks[IndexOf(K.Nrs(ks), r.key)], r.key) else r.MarkInvalid())
    else r
  }

  /** The keyword reference after one resolution pass over the keywords ss:
      unless already resolved, the keywords whose keys it stores, in store order. */
  function ResolvedTags(t: KeyArray<S.Schlagwort>, ss: seq<S.Schlagwort>): KeyArray<S.Schlagwort>
    reads ss
  {
    t.Resolve(Gather(ss, Selected(S.Uuids(ss), Elems(t.keys))))
  }

  /** One pass leaves both references resolved, whatever the store holds;
      a reference with nothing to do is left as it was. */
  lemma ResolutionPassResolves(r: ScalarRef<K.Kunde>, t: KeyArray<S.Schlagwort>, ks: seq<K.Kunde>, ss: seq<S.Schlagwort>)
    ensures AllResolved(ResolvedCustomer(r, ks), ResolvedTags(t, ss))
    ensures AllResolved(r, t) ==> ResolvedCustomer(r, ks) == r && ResolvedTags(t, ss) == t
  {
  }

  class DataManager {
    var allKunde: seq<K.Kunde>
    var allAuftrag: seq<A.Auftrag>
    var allSchlagwort: seq<S.Schlagwort>
    var chunkSize: int
    var database: Database

    /** The store once initDatabase has opened the database: empty collections, default chunk size. */
    constructor (database: Database)
      ensures this.database == database && chunkSize == DefaultChunkSize
      ensures allKunde == [] && allAuftrag == [] && allSchlagwort == []
    {
      this.database := database;
      chunkSize := DefaultChunkSize;
      allKunde, allAuftrag, allSchlagwort := [], [], [];
    }

    method SetChunkSize(newChunkSize: int)
      modifies this
      ensures chunkSize == newChunkSize
      ensures allKunde == old(allKunde) && allAuftrag == old(allAuftrag) && allSchlagwort == old(allSchlagwort) && database == old(database)
    {
      chunkSize := newChunkSize;
    }

    // C U S T O M E R S

    /** Appends: the earlier customers keep their places. */
    method InsertKunde(k: K.Kunde)
      modifies this
      ensures allKunde == old(allKunde) + [k]
      ensures allAuftrag == old(allAuftrag) && allSchlagwort == old(allSchlagwort) && chunkSize == old(chunkSize) && database == old(database)
    {
      allKunde := allKunde + [k];
    }

    /** Appends a new customer filled from m; the foreign view has the same keys. */
    method InsertKundeFromMap(m: VariantMap, useForeignProperties: bool)
      modifies this
      ensures |allKunde| == |old(allKunde)| + 1 && allKunde[..|old(allKunde)|] == old(allKunde)
      ensures fresh(allKunde[|allKunde| - 1]) && K.FilledFrom(allKunde[|allKunde| - 1], m)
      ensures allAuftrag == old(allAuftrag) && allSchlagwort == old(allSchlagwort) && chunkSize == old(chunkSize) && database == old(database)
    {
      var k := new K.Kunde();
      if useForeignProperties {
        k.FillFromForeignMap(m);
      } else {
        k.FillFromMap(m);
      }
      allKunde := allKunde + [k];
    }

    /** A new customer for the UI to edit; the store is not touched. */
    method CreateKunde() returns (k: K.Kunde)
      ensures fresh(k) && k.nr == -1 && k.name == "" && k.ort == "" && !k.IsValid()
    {
      k := new K.Kunde();
    }

    /** Removes the first occurrence of k; false, and no change, when k is not stored. */
    method DeleteKunde(k: K.Kunde) returns (ok: bool)
      modifies this
      ensures ok <==> k in old(allKunde)
      ensures allKunde == RemoveOne(old(allKunde), k)
      ensures allAuftrag == old(allAuftrag) && allSchlagwort == old(allSchlagwort) && chunkSize == old(chunkSize) && database == old(database)
    {
      ok := k in allKunde;
      allKunde := RemoveOne(allKunde, k);
    }

    /** Removes the first customer with number nr; false, and no change, when none has it. */
    method DeleteKundeByNr(nr: int) returns (ok: bool)
      modifies this
      ensures ok <==> nr in old(K.Nrs(allKunde))
      ensures ok ==> allKunde == RemoveAt(old(allKunde), IndexOf(old(K.Nrs(allKunde)), nr))
      ensures !ok ==> allKunde == old(allKunde)
      ensures allAuftrag == old(allAuftrag) && allSchlagwort == old(allSchlagwort) && chunkSize == old(chunkSize) && database == old(database)
    {
      ghost var keys := K.Nrs(allKunde);
      var i := FirstIndex(K.Nrs(allKunde), nr);
      assert i == IndexOf(keys, nr);
      ok := i >= 0;
      assert ok <==> nr in keys;
      if ok {
        allKunde := RemoveAt(allKunde, i);
      }
    }

    /** Empties the collection. */
    method DeleteAllKunde()
      modifies this
      ensures allKunde == []
      ensures allAuftrag == old(allAuftrag) && allSchlagwort == old(allSchlagwort) && chunkSize == old(chunkSize) && database == old(database)
    {
      allKunde := [];
    }

    /** The first customer with number nr, or null when there is none. */
    method FindKundeByNr(nr: int) returns (k: K.Kunde?)
      ensures k == null <==> nr !in K.Nrs(allKunde)
      ensures k != null ==> k == allKunde[IndexOf(K.Nrs(allKunde), nr)] && k.nr == nr
    {
      var i := FirstIndex(K.Nrs(allKunde), nr);
      k := if i < 0 then null else allKunde[i];
    }

    /** The customers whose numbers (as text) are among keyList, in collection order. */
    method ListOfKundeForKeys(keyList: seq<string>) returns (found: seq<K.Kunde>)
      ensures found == Gather(allKunde, Selected(Numbers(K.Nrs(allKunde)), Elems(keyList)))
    {
      found := ListForKeys(allKunde, Numbers(K.Nrs(allKunde)), keyList);
    }

    /** One new customer per record, filled from its cache view, in record order. */
    method InitKundeFromCache(records: seq<Variant>)
      modifies this
      ensures |allKunde| == |records|
      ensures forall i :: 0 <= i < |records| ==> fresh(allKunde[i]) && K.FilledFrom(allKunde[i], Qt.ToMap(records[i]))
      ensures allAuftrag == old(allAuftrag) && allSchlagwort == old(allSchlagwort) && chunkSize == old(chunkSize) && database == old(database)
    {
      allKunde := [];
      var i := 0;
      while i < |records|
        invariant 0 <= i <= |records| && |allKunde| == i
        invariant forall j :: 0 <= j < i ==> fresh(allKunde[j]) && K.FilledFrom(allKunde[j], Qt.ToMap(records[j]))
        invariant allAuftrag == old(allAuftrag) && allSchlagwort == old(allSchlagwort) && chunkSize == old(chunkSize) && database == old(database)
      {
        var k := new K.Kunde();
        k.FillFromCacheMap(Qt.ToMap(records[i]));
        allKunde := allKunde + [k];
        i := i + 1;
      }
    }

    /** The cache view of every customer, in collection order. */
    method SaveKundeToCache() returns (records: seq<Variant>)
      ensures |records| == |allKunde|
      ensures forall i :: 0 <= i < |allKunde| ==> records[i] == MapV(allKunde[i].ToCacheMap())
    {
      records := [];
      var i := 0;
      while i < |allKunde|
        invariant 0 <= i <= |allKunde| && |records| == i
        invariant forall j :: 0 <= j < i ==> records[j] == MapV(allKunde[j].ToCacheMap())
      {
        records := records + [MapV(allKunde[i].ToCacheMap())];
        i := i + 1;
      }
    }

    // O R D E R S

    method InsertAuftrag(a: A.Auftrag)
      modifies this
      ensures allAuftrag == old(allAuftrag) + [a]
      ensures allKunde == old(allKunde) && allSchlagwort == old(allSchlagwort) && chunkSize == old(chunkSize) && database == old(database)
    {
      allAuftrag := allAuftrag + [a];
    }

    method InsertAuftragFromMap(m: VariantMap, useForeignProperties: bool, parse: A.DateParser, gen: UuidSource)
      modifies this, gen
      ensures |allAuftrag| == |old(allAuftrag)| + 1 && allAuftrag[..|old(allAuftrag)|] == old(allAuftrag)
      ensures fresh(allAuftrag[|allAuftrag| - 1]) && A.FilledFresh(allAuftrag[|allAuftrag| - 1], m, parse)
      ensures allKunde == old(allKunde) && allSchlagwort == old(allSchlagwort) && chunkSize == old(chunkSize) && database == old(database)
    {
      var a := A.NewFilled(m, if useForeignProperties then A.ForeignView else A.AppView, parse, gen);
      allAuftrag := allAuftrag + [a];
    }

    /** A new order for the UI to edit (prepareNew does nothing for orders). */
    method CreateAuftrag() returns (a: A.Auftrag)
      ensures fresh(a) && a.nr == -1 && a.positionen == [] && !a.IsValid()
      ensures a.Auftraggeber().State() == Unset && !a.AreTagsKeysResolved()
    {
      a := new A.Auftrag();
    }

    method DeleteAuftrag(a: A.Auftrag) returns (ok: bool)
      modifies this
      ensures ok <==> a in old(allAuftrag)
      ensures allAuftrag == RemoveOne(old(allAuftrag), a)
      ensures allKunde == old(allKunde) && allSchlagwort == old(allSchlagwort) && chunkSize == old(chunkSize) && database == old(database)
    {
      ok := a in allAuftrag;
      allAuftrag := RemoveOne(allAuftrag, a);
    }

    method DeleteAuftragByNr(nr: int) returns (ok: bool)
      modifies this
      ensures ok <==> nr in old(AuftragNrs(allAuftrag))
      ensures ok ==> allAuftrag == RemoveAt(old(allAuftrag), IndexOf(old(AuftragNrs(allAuftrag)), nr))
      ensures !ok ==> allAuftrag == old(allAuftrag)
      ensures allKunde == old(allKunde) && allSchlagwort == old(allSchlagwort) && chunkSize == old(chunkSize) && database == old(database)
    {
      ghost var keys := AuftragNrs(allAuftrag);
      var i := FirstIndex(AuftragNrs(allAuftrag), nr);
      assert i == IndexOf(keys, nr);
      ok := i >= 0;
      assert ok <==> nr in keys;
      if ok {
        allAuftrag := RemoveAt(allAuftrag, i);
      }
    }

    method DeleteAllAuftrag()
      modifies this
      ensures allAuftrag == []
      ensures allKunde == old(allKunde) && allSchlagwort == old(allSchlagwort) && chunkSize == old(chunkSize) && database == old(database)
    {
      allAuftrag := [];
    }

    method FindAuftragByNr(nr: int) returns (a: A.Auftrag?)
      ensures a == null <==> nr !in AuftragNrs(allAuftrag)
      ensures a != null ==> a == allAuftrag[IndexOf(AuftragNrs(allAuftrag), nr)] && a.nr == nr
    {
      var i := FirstIndex(AuftragNrs(allAuftrag), nr);
      a := if i < 0 then null else allAuftrag[i];
    }

    method ListOfAuftragForKeys(keyList: seq<string>) returns (found: seq<A.Auftrag>)
      ensures found == Gather(allAuftrag, Selected(Numbers(AuftragNrs(allAuftrag)), Elems(keyList)))
    {
      found := ListForKeys(allAuftrag, Numbers(AuftragNrs(allAuftrag)), keyList);
    }

    /** Binds the customer when it is stored and marks the reference invalid
        when not, then resolves the keyword keys against the stored keywords.
        A null order, or one already fully resolved, is left as it is. */
    method ResolveAuftragReferences(a: A.Auftrag?)
      modifies a
      ensures a != null ==> a.IsAllResolved()
      ensures a != null && old(a.IsAllResolved()) ==> a.Auftraggeber() == old(a.Auftraggeber()) && a.Tags() == old(a.Tags())
      ensures a != null ==> a.Auftraggeber() == old(ResolvedCustomer(a.Auftraggeber(), allKunde))
      ensures a != null ==> a.Tags() == old(ResolvedTags(a.Tags(), allSchlagwort))
      ensures a != null ==> a.Attributes() == old(a.Attributes()) && a.positionen == old(a.positionen)
    {
      if a != null {
        ResolutionPassResolves(a.Auftraggeber(), a.Tags(), allKunde, allSchlagwort);
        if !a.IsAllResolved() {
          ResolveAuftraggeberOf(a);
          ResolveTagsOf(a);
        }
      }
    }

    /** The customer half of resolveAuftragReferences. */
    method ResolveAuftraggeberOf(a: A.Auftrag)
      modifies a
      ensures a.Auftraggeber() == old(ResolvedCustomer(a.Auftraggeber(), allKunde))
      ensures a.Tags() == old(a.Tags()) && a.Attributes() == old(a.Attributes()) && a.positionen == old(a.positionen)
    {
      if a.HasAuftraggeber() && !a.IsAuftraggeberResolvedAsDataObject() {
        var k := FindKundeByNr(a.auftraggeber);
        if k != null {
          a.ResolveAuftraggeberAsDataObject(k);
        } else {
          a.MarkAuftraggeberAsInvalid();
        }
      }
    }

    /** The keyword half of resolveAuftragReferences. */
    method ResolveTagsOf(a: A.Auftrag)
      modifies a
      ensures a.Tags() == old(ResolvedTags(a.Tags(), allSchlagwort))
      ensures a.Auftraggeber() == old(a.Auftraggeber()) && a.Attributes() == old(a.Attributes()) && a.positionen == old(a.positionen)
    {
      if !a.AreTagsKeysResolved() {
        var found := ListOfSchlagwortForKeys(a.tagsKeys);
        a.ResolveTagsKeys(found);
      }
    }

    /** Every stored order ends fully resolved; nothing but the references changes. */
    method ResolveReferencesForAllAuftrag()
      modifies allAuftrag
      ensures forall i :: 0 <= i < |allAuftrag| ==> allAuftrag[i].IsAllResolved()
      ensures forall i :: 0 <= i < |allAuftrag| ==>
        allAuftrag[i].Attributes() == old(allAuftrag[i].Attributes()) && allAuftrag[i].positionen == old(allAuftrag[i].positionen)
    {
      var i := 0;
      while i < |allAuftrag|
        invariant 0 <= i <= |allAuftrag|
        invariant forall j :: 0 <= j < i ==> allAuftrag[j].IsAllResolved()
        invariant forall j :: 0 <= j < |allAuftrag| ==>
          allAuftrag[j].Attributes() == old(allAuftrag[j].Attributes()) && allAuftrag[j].positionen == old(allAuftrag[j].positionen)
      {
        ResolveAuftragReferences(allAuftrag[i]);
        i := i + 1;
      }
    }

    method InitAuftragFromCache(records: seq<Variant>, parse: A.DateParser, gen: UuidSource)
      modifies this, gen
      ensures |allAuftrag| == |records|
      ensures forall i :: 0 <= i < |records| ==>
        fresh(allAuftrag[i]) && A.FilledFresh(allAuftrag[i], Qt.ToMap(records[i]), parse)
      ensures allKunde == old(allKunde) && allSchlagwort == old(allSchlagwort) && chunkSize == old(chunkSize) && database == old(database)
    {
      allAuftrag := [];
      var i := 0;
      while i < |records|
        invariant 0 <= i <= |records| && |allAuftrag| == i
        invariant forall j :: 0 <= j < i ==>
          fresh(allAuftrag[j]) && A.FilledFresh(allAuftrag[j], Qt.ToMap(records[j]), parse)
        invariant allKunde == old(allKunde) && allSchlagwort == old(allSchlagwort) && chunkSize == old(chunkSize) && database == old(database)
      {
        var a := A.NewFilled(Qt.ToMap(records[i]), A.CacheView, parse, gen);
        allAuftrag := allAuftrag + [a];
        i := i + 1;
      }
    }

    // K E Y W O R D S

    method InsertSchlagwort(s: S.Schlagwort)
      modifies this
      ensures allSchlagwort == old(allSchlagwort) + [s]
      ensures allKunde == old(allKunde) && allAuftrag == old(allAuftrag) && chunkSize == old(chunkSize) && database == old(database)
    {
      allSchlagwort := allSchlagwort + [s];
    }

    method InsertSchlagwortFromMap(m: VariantMap, useForeignProperties: bool, gen: UuidSource)
      modifies this, gen
      ensures |allSchlagwort| == |old(allSchlagwort)| + 1 && allSchlagwort[..|old(allSchlagwort)|] == old(allSchlagwort)
      ensures fresh(allSchlagwort[|allSchlagwort| - 1]) && S.FilledFrom(allSchlagwort[|allSchlagwort| - 1], m)
      ensures allKunde == old(allKunde) && allAuftrag == old(allAuftrag) && chunkSize == old(chunkSize) && database == old(database)
    {
      var s := new S.Schlagwort();
      if useForeignProperties {
        s.FillFromForeignMap(m, gen);
      } else {
        s.FillFromMap(m, gen);
      }
      allSchlagwort := allSchlagwort + [s];
    }

    /** A new keyword with a generated key; the store is not touched. */
    method CreateSchlagwort(gen: UuidSource) returns (s: S.Schlagwort)
      modifies gen
      ensures fresh(s) && s.IsValid() && s.text == ""
      ensures s.uuid == StripBraces(gen.raw(old(gen.issued))) && gen.issued == old(gen.issued) + 1
    {
      s := new S.Schlagwort();
      s.PrepareNew(gen);
    }

    method DeleteSchlagwort(s: S.Schlagwort) returns (ok: bool)
      modifies this
      ensures ok <==> s in old(allSchlagwort)
      ensures allSchlagwort == RemoveOne(old(allSchlagwort), s)
      ensures allKunde == old(allKunde) && allAuftrag == old(allAuftrag) && chunkSize == old(chunkSize) && database == old(database)
    {
      ok := s in allSchlagwort;
      allSchlagwort := RemoveOne(allSchlagwort, s);
    }

    /** An empty key is refused before any scan; otherwise the first keyword with that key goes. */
    method DeleteSchlagwortByUuid(uuid: string) returns (ok: bool)
      modifies this
      ensures ok <==> uuid != "" && uuid in old(S.Uuids(allSchlagwort))
      ensures ok ==> allSchlagwort == RemoveAt(old(allSchlagwort), IndexOf(old(S.Uuids(allSchlagwort)), uuid))
      ensures !ok ==> allSchlagwort == old(allSchlagwort)
      ensures allKunde == old(allKunde) && allAuftrag == old(allAuftrag) && chunkSize == old(chunkSize) && database == old(database)
    {
      ghost var keys := S.Uuids(allSchlagwort);
      var i := -1;
      if uuid != "" {
        i := FirstIndex(S.Uuids(allSchlagwort), uuid);
        assert i == IndexOf(keys, uuid);
      }
      ok := i >= 0;
      assert ok <==> uuid != "" && uuid in keys;
      if ok {
        allSchlagwort := RemoveAt(allSchlagwort, i);
      }
    }

    method DeleteAllSchlagwort()
      modifies this
      ensures allSchlagwort == []
      ensures allKunde == old(allKunde) && allAuftrag == old(allAuftrag) && chunkSize == old(chunkSize) && database == old(database)
    {
      allSchlagwort := [];
    }

    /** Null for an empty key, without scanning; else the first keyword with that key, or null. */
    method FindSchlagwortByUuid(uuid: string) returns (s: S.Schlagwort?)
      ensures uuid == "" ==> s == null
      ensures uuid != "" ==> (s == null <==> uuid !in S.Uuids(allSchlagwort))
      ensures s != null ==> s == allSchlagwort[IndexOf(S.Uuids(allSchlagwort), uuid)] && s.uuid == uuid
    {
      if uuid == "" {
        return null;
      }
      var i := FirstIndex(S.Uuids(allSchlagwort), uuid);
      s := if i < 0 then null else allSchlagwort[i];
    }

    method ListOfSchlagwortForKeys(keyList: seq<string>) returns (found: seq<S.Schlagwort>)
      ensures found == Gather(allSchlagwort, Selected(S.Uuids(allSchlagwort), Elems(keyList)))
    {
      found := ListForKeys(allSchlagwort, S.Uuids(allSchlagwort), keyList);
    }

    method InitSchlagwortFromCache(records: seq<Variant>, gen: UuidSource)
      modifies this, gen
      ensures |allSchlagwort| == |records|
      ensures forall i :: 0 <= i < |records| ==> fresh(allSchlagwort[i]) && S.FilledFrom(allSchlagwort[i], Qt.ToMap(records[i]))
      ensures allKunde == old(allKunde) && allAuftrag == old(allAuftrag) && chunkSize == old(chunkSize) && database == old(database)
    {
      allSchlagwort := [];
      var i := 0;
      while i < |records|
        invariant 0 <= i <= |records| && |allSchlagwort| == i
        invariant forall j :: 0 <= j < i ==> fresh(allSchlagwort[j]) && S.FilledFrom(allSchlagwort[j], Qt.ToMap(records[j]))
        invariant allKunde == old(allKunde) && allAuftrag == old(allAuftrag) && chunkSize == old(chunkSize) && database == old(database)
      {
        var s := new S.Schlagwort();
        s.FillFromCacheMap(Qt.ToMap(records[i]), gen);
        allSchlagwort := allSchlagwort + [s];
        i := i + 1;
      }
    }

    method SaveSchlagwortToCache() returns (records: seq<Variant>)
      ensures |records| == |allSchlagwort|
      ensures forall i :: 0 <= i < |allSchlagwort| ==> records[i] == MapV(allSchlagwort[i].ToCacheMap())
    {
      records := [];
      var i := 0;
      while i < |allSchlagwort|
        invariant 0 <= i <= |allSchlagwort| && |records| == i
        invariant forall j :: 0 <= j < i ==> records[j] == MapV(allSchlagwort[j].ToCacheMap())
      {
        records := records + [MapV(allSchlagwort[i].ToCacheMap())];
        i := i + 1;
      }
    }

    // S Q L   B U L K   I M P O R T

    /** Runs the pragma statements in order until the first failure: the
        fifth sets journal_mode, the eighth synchronous. */
    static method BulkImport(db: Database, tune: bool) returns (after: Database)
      ensures after == db.AfterBulkImport(tune)
    {
      var steps := db.server.PragmaSteps(tune);
      after := db;
      if steps >= JournalSetBy {
        after := after.(journal := if tune then JournalMemory else JournalDelete);
      }
      if steps >= SyncSetBy {
        after := after.(synchronous := if tune then SyncOff else SyncFull);
      }
      after := after.(log := after.log + [BulkImportCalled(tune)]);
    }

    /** The column vectors of one chunk: toSqlCache of every customer in [fromPos, toPos). */
    method BatchColumns(fromPos: int, toPos: int) returns (nrs: seq<Variant>, names: seq<Variant>, orts: seq<Variant>)
      requires fromPos < toPos ==> 0 <= fromPos && toPos <= |allKunde|
      ensures |nrs| == |names| == |orts|
      ensures Zip(nrs, names, orts) == Window(KundeRows(allKunde), fromPos, toPos)
    {
      ghost var rows := KundeRows(allKunde);
      nrs, names, orts := [], [], [];
      var i := fromPos;
      while i < toPos
        invariant fromPos <= i && (if fromPos < toPos then i <= toPos else i == fromPos)
        invariant |nrs| == |names| == |orts| == i - fromPos
        invariant forall j :: 0 <= j < i - fromPos ==> Row(nrs[j], names[j], orts[j]) == rows[fromPos + j]
      {
        nrs, names, orts := allKunde[i].ToSqlCache(nrs, names, orts);
        i := i + 1;
      }
      ghost var zipped := Zip(nrs, names, orts);
      if fromPos < toPos {
        assert forall j :: 0 <= j < |zipped| ==> zipped[j] == rows[fromPos..toPos][j];
      }
    }

    /** One chunk transaction: begin, bind the window [fromPos, toPos),
        batch insert, end; the first failing statement ends the lap. */
    method InsertChunk(db: Database, lap: nat, fromPos: int, toPos: int, ghost rows: seq<Row>)
      returns (ok: bool, after: Database)
      requires rows == KundeRows(allKunde)
      requires fromPos < toPos ==> 0 <= fromPos && toPos <= |rows|
      ensures ok == LapOk(db.server.failing, lap)
      ensures after == RunLap(db, lap, Window(rows, fromPos, toPos))
    {
      ok, after := db.ExecBegin(lap);
      if ok {
        var nrs, names, orts := BatchColumns(fromPos, toPos);
        ok, after := after.ExecBatch(lap, nrs, names, orts);
        if ok {
          ok, after := after.ExecEnd(lap);
        }
      }
    }

    /** The lap loop of saveKundeToSqlCache: laps = size / chunk rounded up
        in C++ int arithmetic, lap k binding the window
        [k * chunk, min((k + 1) * chunk, size)); a failed lap ends the
        import at once. rows are the rows toSqlCache gives for the customers. */
    method InsertChunks(db: Database, ghost rows: seq<Row>) returns (after: Database)
      requires rows == KundeRows(allKunde)
      requires chunkSize != 0
      ensures after == RunLaps(db, rows, chunkSize, Laps(|rows|, chunkSize), 0)
    {
      var n, c := |allKunde|, chunkSize;
      var laps := ChunkLaps(n, c);
      var count: nat := 0;
      var fromPos := 0;
      var toPos := c;
      if toPos > n {
        toPos := n;
      }
      after := db;
      WindowStep(n, c, 0);
      while count < laps
        invariant fromPos == From(c, count) && toPos == To(n, c, count)
        invariant RunLaps(after, rows, c, laps, count) == RunLaps(db, rows, c, laps, 0)
        decreases laps - count
      {
        WindowInRange(n, c, count);
        WindowStep(n, c, count);
        var ok;
        ok, after := InsertChunk(after, count, fromPos, toPos, rows);
        if !ok {
          return;
        }
        count := count + 1;
        fromPos := fromPos + c;
        toPos := toPos + c;
        if toPos > n {
          toPos := n;
        }
      }
    }

    /** Drops and recreates the table, then inserts the customers chunk by
        chunk, one transaction per chunk; the first failing statement ends
        the import, and every exit restores the pragmas. */
    method SaveKundeToSqlCache()
      requires chunkSize != 0
      modifies this
      ensures allKunde == old(allKunde) && allAuftrag == old(allAuftrag) && allSchlagwort == old(allSchlagwort)
      ensures chunkSize == old(chunkSize)
      ensures database == SavedKunde(old(database), old(KundeRows(allKunde)), chunkSize)
    {
      ghost var rows := KundeRows(allKunde);
      var db := BulkImport(database, true);
      var ok;
      ok, db := db.ExecDrop();
      if ok {
        ok, db := db.ExecCreate();
        if ok {
          db := InsertChunks(db, rows);
        }
      }
      db := BulkImport(db, false);
      database := db;
    }
  }

  /** The database after saveKundeToSqlCache with rows for the customers and
      chunk size c: the import, then the restoring bulkImport(false), which
      runs on every exit path. */
  function SavedKunde(d: Database, rows: seq<Row>, c: int): Database
    requires c != 0
  {
    Imported(d, rows, c).AfterBulkImport(false)
  }

  /** The database before the restoring call: tune, drop, create and the
      laps; a failing drop or create skips what follows it. */
  function Imported(d: Database, rows: seq<Row>, c: int): Database
    requires c != 0
  {
    var dropped := d.AfterBulkImport(true).AfterDrop();
    if DropTable in d.server.failing then dropped
    else
      var created := dropped.AfterCreate();
      if CreateTable in d.server.failing then created
      else RunLaps(created, rows, c, Laps(|rows|, c), 0)
  }

  /** The import keeps the tuned pragmas and the server, and logs the tuning
      call, drop, create and the laps up to the first failure. */
  lemma ImportedResult(d: Database, rows: seq<Row>, c: int)
    requires c != 0
    ensures var tuned := d.AfterBulkImport(true);
      Imported(d, rows, c).journal == tuned.journal && Imported(d, rows, c).synchronous == tuned.synchronous
    ensures Imported(d, rows, c).server == d.server
    ensures Imported(d, rows, c).log == d.log + [BulkImportCalled(true)] + ImportLog(d.server.failing, Laps(|rows|, c))
    ensures DropTable in d.server.failing ==> Imported(d, rows, c).table == d.table
    ensures DropTable !in d.server.failing && CreateTable in d.server.failing ==> Imported(d, rows, c).table == None
    ensures DropTable !in d.server.failing && CreateTable !in d.server.failing ==>
      Imported(d, rows, c).table == Some(Committed(rows, c, StopLap(d.server.failing, Laps(|rows|, c), 0)))
  {
    var failing, laps := d.server.failing, Laps(|rows|, c);
    var tuned := d.AfterBulkImport(true);
    var dropped := tuned.AfterDrop();
    var created := dropped.AfterCreate();
    if DropTable in failing {
      assert Imported(d, rows, c) == dropped;
    } else if CreateTable in failing {
      assert Imported(d, rows, c) == created;
      LogAssoc(tuned.log, [Ran(DropTable, true)], [Ran(CreateTable, false)]);
    } else {
      assert Imported(d, rows, c) == RunLaps(created, rows, c, laps, 0);
      assert Committed(rows, c, 0) == [];
      RunLapsResult(created, rows, c, laps, 0);
      var ddl := [Ran(DropTable, true), Ran(CreateTable, true)];
      assert created.log == tuned.log + ddl;
      LogAssoc(tuned.log, ddl, LapLog(failing, laps, 0));
    }
  }

  /** Every exit of saveKundeToSqlCache is bracketed by the two bulkImport
      calls, with drop, create and the laps up to the first failure between. */
  lemma SavedKundeLog(d: Database, rows: seq<Row>, c: int)
    requires c != 0
    ensures SavedKunde(d, rows, c).log == d.log + SaveLog(d.server.failing, Laps(|rows|, c))
  {
    ImportedResult(d, rows, c);
    var middle := ImportLog(d.server.failing, Laps(|rows|, c));
    LogAssoc(d.log, [BulkImportCalled(true)], middle);
    LogAssoc(d.log, [BulkImportCalled(true)] + middle, [BulkImportCalled(false)]);
  }

  /** A failed drop keeps the old table, a failed create leaves none, and
      otherwise the table holds exactly the rows of the laps that completed,
      in order. */
  lemma SavedKundeTable(d: Database, rows: seq<Row>, c: int)
    requires c != 0
    ensures DropTable in d.server.failing ==> SavedKunde(d, rows, c).table == d.table
    ensures DropTable !in d.server.failing && CreateTable in d.server.failing ==> SavedKunde(d, rows, c).table == None
    ensures DropTable !in d.server.failing && CreateTable !in d.server.failing ==>
      SavedKunde(d, rows, c).table == Some(Committed(rows, c, StopLap(d.server.failing, Laps(|rows|, c), 0)))
  {
    ImportedResult(d, rows, c);
    assert SavedKunde(d, rows, c).table == Imported(d, rows, c).table;
  }

  /** The pragmas end as the tuning call and then the restoring call set them. */
  lemma SavedKundePragmas(d: Database, rows: seq<Row>, c: int)
    requires c != 0
    ensures (SavedKunde(d, rows, c).journal, SavedKunde(d, rows, c).synchronous)
      == AfterImport(d.server.tuneSteps, d.server.restoreSteps, (d.journal, d.synchronous))
    ensures SavedKunde(d, rows, c).server == d.server
  {
    ImportedResult(d, rows, c);
  }

  /** The laps k, k+1, ... of the import from database d: each lap runs on
      what the previous one left, and a failed lap is the last. */
  function RunLaps(d: Database, rows: seq<Row>, c: int, laps: int, k: nat): Database
    decreases laps - k
  {
    if k >= laps then d
    else
      WindowInRange(|rows|, c, k);
      var next := RunLap(d, k, Window(rows, From(c, k), To(|rows|, c, k)));
      if LapOk(d.server.failing, k) then RunLaps(next, rows, c, laps, k + 1) else next
  }

  /** Running the laps from lap k on a table holding what the laps before k
      committed logs the statements of those laps, until the first failure,
      and leaves the table with what every completed lap committed; the
      pragmas are untouched. */
  lemma {:induction false} RunLapsResult(d: Database, rows: seq<Row>, c: int, laps: int, k: nat)
    requires d.table == Some(Committed(rows, c, k))
    ensures RunLaps(d, rows, c, laps, k).log == d.log + LapLog(d.server.failing, laps, k)
    ensures RunLaps(d, rows, c, laps, k).table == Some(Committed(rows, c, StopLap(d.server.failing, laps, k)))
    ensures var r := RunLaps(d, rows, c, laps, k);
      r.journal == d.journal && r.synchronous == d.synchronous && r.server == d.server
    decreases laps - k
  {
    if k < laps {
      var failing := d.server.failing;
      WindowInRange(|rows|, c, k);
      var next := RunLap(d, k, Window(rows, From(c, k), To(|rows|, c, k)));
      CommitStep(rows, c, k);
      if LapOk(failing, k) {
        assert next.table == Some(Committed(rows, c, k + 1));
        RunLapsResult(next, rows, c, laps, k + 1);
        assert RunLaps(d, rows, c, laps, k) == RunLaps(next, rows, c, laps, k + 1);
        assert StopLap(failing, laps, k) == StopLap(failing, laps, k + 1);
        LogAssoc(d.log, LapEvents(failing, k), LapLog(failing, laps, k + 1));
      } else {
        assert RunLaps(d, rows, c, laps, k) == next;
        assert StopLap(failing, laps, k) == k;
        assert LapLog(failing, laps, k) == LapEvents(failing, k) + [];
      }
    } else {
      assert StopLap(d.server.failing, laps, k) == k;
      assert LapLog(d.server.failing, laps, k) == [];
    }
  }

  /** An inserted customer is found by its number, unless an earlier
      customer already has that number; in either case the first match wins. */
  lemma InsertedKundeFound(ks: seq<K.Kunde>, k: K.Kunde)
    ensures IndexOf(K.Nrs(ks + [k]), k.nr) == if k.nr in K.Nrs(ks) then IndexOf(K.Nrs(ks), k.nr) else |ks|
  {
    var all := ks + [k];
    assert all[..|ks|] == ks;
    assert K.Nrs(all) == K.Nrs(ks) + [k.nr] by {
      assert forall i :: 0 <= i < |ks| ==> K.Nrs(all)[i] == K.Nrs(ks)[i];
    }
    IndexOfAppend(K.Nrs(ks), k.nr, k.nr);
  }

  /** Deleting by number removes exactly one customer with that number and no other. */
  lemma DeletedKundeByNr(ks: seq<K.Kunde>, nr: int)
    requires nr in K.Nrs(ks)
    ensures multiset(K.Nrs(RemoveAt(ks, IndexOf(K.Nrs(ks), nr)))) == multiset(K.Nrs(ks)) - multiset{nr}
  {
    var i := IndexOf(K.Nrs(ks), nr);
    assert K.Nrs(RemoveAt(ks, i)) == RemoveAt(K.Nrs(ks), i);
    RemoveAtMultiset(K.Nrs(ks), i);
  }

  /** Loading the records a save produced gives customers equal, field by
      field and in order, to the saved ones. */
  lemma KundeCacheRoundTrip(saved: seq<K.Kunde>, records: seq<Variant>, loaded: seq<K.Kunde>)
    requires |records| == |saved| && forall i :: 0 <= i < |saved| ==> records[i] == MapV(saved[i].ToCacheMap())
    requires |loaded| == |records| && forall i :: 0 <= i < |records| ==> K.FilledFrom(loaded[i], Qt.ToMap(records[i]))
    ensures K.Nrs(loaded) == K.Nrs(saved)
    ensures forall i :: 0 <= i < |saved| ==> loaded[i].name == saved[i].name && loaded[i].ort == saved[i].ort
  {
    forall i | 0 <= i < |saved|
      ensures loaded[i].nr == saved[i].nr && loaded[i].name == saved[i].name && loaded[i].ort == saved[i].ort
    {
      K.CacheRoundTrip(saved[i], loaded[i]);
    }
  }

  /** Loading the saved records of valid keywords gives keywords with the
      same keys and texts, in order. */
  lemma SchlagwortCacheRoundTrip(saved: seq<S.Schlagwort>, records: seq<Variant>, loaded: seq<S.Schlagwort>)
    requires forall i :: 0 <= i < |saved| ==> saved[i].IsValid()
    requires |records| == |saved| && forall i :: 0 <= i < |saved| ==> records[i] == MapV(saved[i].ToCacheMap())
    requires |loaded| == |records| && forall i :: 0 <= i < |records| ==> S.FilledFrom(loaded[i], Qt.ToMap(records[i]))
    ensures S.Uuids(loaded) == S.Uuids(saved)
    ensures forall i :: 0 <= i < |saved| ==> loaded[i].text == saved[i].text
  {
    forall i | 0 <= i < |saved|
      ensures loaded[i].uuid == saved[i].uuid && loaded[i].text == saved[i].text
    {
      S.CacheRoundTrip(saved[i], loaded[i]);
    }
    assert forall i :: 0 <= i < |saved| ==> S.Uuids(loaded)[i] == S.Uuids(saved)[i];
  }

  /** When every statement succeeds and the chunk size is positive, the
      table ends up holding every customer once, in collection order. */
  lemma ImportCommitsAll(rows: seq<Row>, c: int, failing: set<Step>)
    requires c > 0
    requires forall j: nat :: LapOk(failing, j)
    ensures Committed(rows, c, StopLap(failing, Laps(|rows|, c), 0)) == rows
  {
    LapsIsCeiling(|rows|, c);
    AllLapsComplete(failing, Laps(|rows|, c), 0);
    AllLapsCommitAll(rows, c);
  }

  /** A failure keeps what the ended chunks committed: a prefix of the customers. */
  lemma FailureKeepsPrefix(rows: seq<Row>, c: int, failing: set<Step>)
    requires c > 0
    ensures Committed(rows, c, StopLap(failing, Laps(|rows|, c), 0))
      == rows[..Min(StopLap(failing, Laps(|rows|, c), 0) * c, |rows|)]
  {
    CommittedPrefix(rows, c, StopLap(failing, Laps(|rows|, c), 0));
    FromIsProduct(c, StopLap(failing, Laps(|rows|, c), 0));
  }
}
