/** The order entity (Auftrag): scalar attributes, a lazy reference to its
    customer, an owned ordered list of line items, and a lazy key array of
    keywords. The order's foreign (server) keys are the same strings as its
    own keys, so the three fill and the two export flavours share one body. */
module AuftragEntity {
  import opened Qt
  import opened Seqs
  import opened UuidGen
  import opened LazyRefs
  import K = KundeEntity
  import P = PositionEntity
  import S = SchlagwortEntity

  // keys of the map views (the foreign view uses the same strings)
  const NrKey := "nr"
  const DatumKey := "datum"
  const BemerkungKey := "bemerkung"
  const PositionenKey := "positionen"
  const TagsKey := "tags"
  const AuftraggeberKey := "auftraggeber"

  /** QDate::fromString(s, "yyyy-MM-dd"); None stands for the null date an invalid text gives. */
  type DateParser = string -> Option<Date>
  /** QDate::toString("yyyy-MM-dd"). */
  type DateFormatter = Date -> string

  /** Which flavour of the line item fill an order fill delegates to. */
  datatype View = AppView | ForeignView | CacheView

  class Auftrag {
    var nr: int                      // domain key, -1 while unset
    var datum: Option<Date>          // None: the null date
    var bemerkung: string
    var auftraggeber: int            // customer key, -1 while unset
    var auftraggeberInvalid: bool
    var auftraggeberAsDataObject: K.Kunde?
    var positionen: seq<P.Position>
    var tagsKeys: seq<string>
    var tagsKeysResolved: bool
    var tags: seq<S.Schlagwort>

    /** A default order: no keys, no date, nothing to resolve for the customer,
        but the keyword array still counts as unresolved. */
    constructor ()
      ensures nr == -1 && datum == None && bemerkung == ""
      ensures Auftraggeber() == ScalarRef(NoKey, false, None)
      ensures Tags() == KeyArray([], false, []) && positionen == []
      ensures !IsValid() && !IsAllResolved()
    {
      nr, datum, bemerkung := -1, None, "";
      auftraggeber, auftraggeberAsDataObject, auftraggeberInvalid := -1, null, false;
      positionen := [];
      tagsKeys, tagsKeysResolved, tags := [], false, [];
    }

    /** The customer reference as a value. */
    function Auftraggeber(): ScalarRef<K.Kunde>
      reads this
    {
      ScalarRef(auftraggeber, auftraggeberInvalid,
                if auftraggeberAsDataObject == null then None else Some(auftraggeberAsDataObject as K.Kunde))
    }

    /** The keyword reference as a value. */
    function Tags(): KeyArray<S.Schlagwort>
      reads this
    {
      KeyArray(tagsKeys, tagsKeysResolved, tags)
    }

    /** The plain attributes. */
    function Attributes(): (int, Option<Date>, string)
      reads this
    {
      (nr, datum, bemerkung)
    }

    predicate HasAuftraggeber()
      reads this
    {
      Auftraggeber().Has()
    }

    predicate IsAuftraggeberResolvedAsDataObject()
      reads this
    {
      Auftraggeber().IsResolved()
    }

    predicate AreTagsKeysResolved()
      reads this
    {
      tagsKeysResolved
    }

    predicate IsAllResolved()
      reads this
    {
      AllResolved(Auftraggeber(), Tags())
    }

    /** Mandatory: nr, at least one line item, and a customer key. */
    predicate IsValid()
      reads this
    {
      nr != -1 && |positionen| != 0 && auftraggeber != -1
    }

    // customer reference

    method SetAuftraggeber(v: int)
      modifies this
      ensures Auftraggeber() == old(Auftraggeber()).Set(v)
      ensures Attributes() == old(Attributes()) && positionen == old(positionen) && Tags() == old(Tags())
    {
      if v != auftraggeber {
        if auftraggeberAsDataObject != null {
          auftraggeberAsDataObject := null;
        }
        auftraggeber := v;
        auftraggeberInvalid := false;
      }
    }

    method RemoveAuftraggeber()
      modifies this
      ensures Auftraggeber() == old(Auftraggeber()).Remove()
      ensures Attributes() == old(Attributes()) && positionen == old(positionen) && Tags() == old(Tags())
    {
      if auftraggeber != -1 {
        SetAuftraggeber(-1);
      }
    }

    /** A null customer changes nothing; otherwise it is bound under its own number. */
    method ResolveAuftraggeberAsDataObject(k: K.Kunde?)
      modifies this
      ensures k == null ==> Auftraggeber() == old(Auftraggeber())
      ensures k != null ==> Auftraggeber() == old(Auftraggeber()).Resolve(k, k.nr)
      ensures Attributes() == old(Attributes()) && positionen == old(positionen) && Tags() == old(Tags())
    {
      if k != null {
        if k.nr != auftraggeber {
          SetAuftraggeber(k.nr);
        }
        auftraggeberAsDataObject := k;
        auftraggeberInvalid := false;
      }
    }

    method MarkAuftraggeberAsInvalid()
      modifies this
      ensures Auftraggeber() == old(Auftraggeber()).MarkInvalid()
      ensures Attributes() == old(Attributes()) && positionen == old(positionen) && Tags() == old(Tags())
    {
      auftraggeberInvalid := true;
    }

    // line items (owned)

    /** A new line item owned by this order, with a generated key; the list is not touched. */
    method CreateElementOfPositionen(gen: UuidSource) returns (p: P.Position)
      modifies gen
      ensures fresh(p) && p.parent == this && p.IsValid()
      ensures p.uuid == StripBraces(gen.raw(old(gen.issued))) && gen.issued == old(gen.issued) + 1
    {
      p := new P.Position();
      p.SetParent(this);
      p.PrepareNew(gen);
    }

    method AddToPositionen(p: P.Position)
      modifies this
      ensures positionen == old(positionen) + [p]
      ensures Attributes() == old(Attributes()) && Auftraggeber() == old(Auftraggeber()) && Tags() == old(Tags())
    {
      positionen := positionen + [p];
    }

    /** Removes the first occurrence of p; false, and no change, when p is not in the list. */
    method RemoveFromPositionen(p: P.Position) returns (ok: bool)
      modifies this
      ensures ok <==> p in old(positionen)
      ensures positionen == RemoveOne(old(positionen), p)
      ensures !ok ==> positionen == old(positionen)
      ensures Attributes() == old(Attributes()) && Auftraggeber() == old(Auftraggeber()) && Tags() == old(Tags())
    {
      ok := p in positionen;
      positionen := RemoveOne(positionen, p);
    }

    /** Removes the last element as many times as the list is long. */
    method ClearPositionen()
      modifies this
      ensures positionen == []
      ensures Attributes() == old(Attributes()) && Auftraggeber() == old(Auftraggeber()) && Tags() == old(Tags())
    {
      var i := |positionen|;
      while i > 0
        invariant i == |positionen|
        invariant Attributes() == old(Attributes()) && Auftraggeber() == old(Auftraggeber()) && Tags() == old(Tags())
      {
        var ok := RemoveFromPositionen(positionen[|positionen| - 1]);
        i := i - 1;
      }
    }

    /** Appends a new line item owned by this order and filled from m. */
    method AddToPositionenFromMap(m: VariantMap, gen: UuidSource)
      modifies this, gen
      ensures |positionen| == |old(positionen)| + 1 && positionen[..|old(positionen)|] == old(positionen)
      ensures var p := positionen[|positionen| - 1];
        fresh(p) && p.parent == this && P.FilledFrom(p, m)
      ensures Attributes() == old(Attributes()) && Auftraggeber() == old(Auftraggeber()) && Tags() == old(Tags())
    {
      var p := new P.Position();
      p.SetParent(this);
      p.FillFromMap(m, gen);
      positionen := positionen + [p];
    }

    /** Removes the first line item with the given key; false, and no change, when none has it. */
    method RemoveFromPositionenByUuid(uuid: string) returns (ok: bool)
      modifies this
      ensures ok <==> uuid in old(P.Uuids(positionen))
      ensures ok ==> positionen == RemoveAt(old(positionen), IndexOf(old(P.Uuids(positionen)), uuid))
      ensures !ok ==> positionen == old(positionen)
      ensures Attributes() == old(Attributes()) && Auftraggeber() == old(Auftraggeber()) && Tags() == old(Tags())
    {
      ghost var keys := P.Uuids(positionen);
      var i := FirstIndex(P.Uuids(positionen), uuid);
      assert i == IndexOf(keys, uuid);
      ok := i >= 0;
      assert ok <==> uuid in keys;
      if ok {
        positionen := RemoveAt(positionen, i);
      }
    }

    // keywords (independent objects)

    method AddToTags(s: S.Schlagwort)
      modifies this
      ensures tags == old(tags) + [s] && tagsKeys == old(tagsKeys) && tagsKeysResolved == old(tagsKeysResolved)
      ensures Attributes() == old(Attributes()) && Auftraggeber() == old(Auftraggeber()) && positionen == old(positionen)
    {
      tags := tags + [s];
    }

    /** Removes the first occurrence of s; false, and no change, when s is not a keyword of this order. */
    method RemoveFromTags(s: S.Schlagwort) returns (ok: bool)
      modifies this
      ensures ok <==> s in old(tags)
      ensures tags == RemoveOne(old(tags), s)
      ensures !ok ==> tags == old(tags)
      ensures tagsKeys == old(tagsKeys) && tagsKeysResolved == old(tagsKeysResolved)
      ensures Attributes() == old(Attributes()) && Auftraggeber() == old(Auftraggeber()) && positionen == old(positionen)
    {
      ok := s in tags;
      tags := RemoveOne(tags, s);
    }

    /** Removes the last keyword as many times as the list is long; the keys stay. */
    method ClearTags()
      modifies this
      ensures tags == [] && tagsKeys == old(tagsKeys) && tagsKeysResolved == old(tagsKeysResolved)
      ensures Attributes() == old(Attributes()) && Auftraggeber() == old(Auftraggeber()) && positionen == old(positionen)
    {
      var i := |tags|;
      while i > 0
        invariant i == |tags|
        invariant tagsKeys == old(tagsKeys) && tagsKeysResolved == old(tagsKeysResolved)
        invariant Attributes() == old(Attributes()) && Auftraggeber() == old(Auftraggeber()) && positionen == old(positionen)
      {
        var ok := RemoveFromTags(tags[|tags| - 1]);
        i := i - 1;
      }
    }

    /** A no-op once resolved; otherwise the keywords become found, in order, and count as resolved. */
    method ResolveTagsKeys(found: seq<S.Schlagwort>)
      modifies this
      ensures Tags() == old(Tags()).Resolve(found)
      ensures Attributes() == old(Attributes()) && Auftraggeber() == old(Auftraggeber()) && positionen == old(positionen)
    {
      if tagsKeysResolved {
        return;
      }
      tags := [];
      var i := 0;
      while i < |found|
        invariant 0 <= i <= |found|
        invariant tags == found[..i]
        invariant tagsKeys == old(tagsKeys) && !tagsKeysResolved
        invariant Attributes() == old(Attributes()) && Auftraggeber() == old(Auftraggeber()) && positionen == old(positionen)
      {
        AddToTags(found[i]);
        i := i + 1;
      }
      tagsKeysResolved := true;
    }

    // map views

    /** The line items a fill builds from list: fresh, owned by this order, one per entry, in order. */
    method BuildPositionen(list: seq<Variant>, view: View, gen: UuidSource) returns (ps: seq<P.Position>)
      modifies gen
      ensures |ps| == |list| && NoDuplicates(ps)
      ensures forall i :: 0 <= i < |ps| ==>
        fresh(ps[i]) && ps[i].parent == this && P.FilledFrom(ps[i], Qt.ToMap(list[i]))
    {
      ps := [];
      var i := 0;
      while i < |list|
        invariant 0 <= i <= |list| && |ps| == i && NoDuplicates(ps)
        invariant forall k :: 0 <= k < i ==>
          fresh(ps[k]) && ps[k].parent == this && P.FilledFrom(ps[k], Qt.ToMap(list[k]))
      {
        var p := new P.Position();
        p.SetParent(this);
        FillPosition(p, Qt.ToMap(list[i]), view, gen);
        ps := ps + [p];
        i := i + 1;
      }
    }

    /** What any fill from m leaves: absent keys give the conversion defaults,
        except datum and auftraggeber, which an absent key leaves as they were;
        the customer key is stored without touching the cached object or the
        invalid flag; line items are rebuilt from the list under positionen;
        the keyword objects are dropped and the keys are resolved exactly when
        there are none. */
    twostate predicate LoadedFrom(m: VariantMap, parse: DateParser)
      reads this, positionen
    {
      && nr == ToInt(Value(m, NrKey))
      && datum == (if DatumKey in m then parse(ToStr(m[DatumKey])) else old(datum))
      && bemerkung == ToStr(Value(m, BemerkungKey))
      && Auftraggeber() == (if AuftraggeberKey in m then old(Auftraggeber()).(key := ToInt(m[AuftraggeberKey]))
                            else old(Auftraggeber()))
      && Tags() == Loaded(ToStringList(Value(m, TagsKey)))
      && |positionen| == |ToList(Value(m, PositionenKey))|
      && forall i :: 0 <= i < |positionen| ==>
           positionen[i].parent == this && P.FilledFrom(positionen[i], Qt.ToMap(ToList(Value(m, PositionenKey))[i]))
    }

    /** The attribute part of a fill: everything but the line items. */
    method LoadFields(m: VariantMap, parse: DateParser)
      modifies this
      ensures nr == ToInt(Value(m, NrKey)) && bemerkung == ToStr(Value(m, BemerkungKey))
      ensures datum == (if DatumKey in m then parse(ToStr(m[DatumKey])) else old(datum))
      ensures auftraggeber == if AuftraggeberKey in m then ToInt(m[AuftraggeberKey]) else old(auftraggeber)
      ensures auftraggeberInvalid == old(auftraggeberInvalid) && auftraggeberAsDataObject == old(auftraggeberAsDataObject)
      ensures tagsKeys == ToStringList(Value(m, TagsKey)) && tagsKeysResolved == (|tagsKeys| == 0) && tags == []
      ensures positionen == old(positionen)
    {
      var keys := ToStringList(Value(m, TagsKey));
      nr := ToInt(Value(m, NrKey));
      if DatumKey in m {
        datum := parse(ToStr(m[DatumKey]));
      }
      bemerkung := ToStr(Value(m, BemerkungKey));
      if AuftraggeberKey in m {
        auftraggeber := ToInt(m[AuftraggeberKey]);
      }
      tagsKeys, tagsKeysResolved, tags := keys, |keys| == 0, [];
    }

    method Load(m: VariantMap, view: View, parse: DateParser, gen: UuidSource)
      modifies this, gen
      ensures LoadedFrom(m, parse)
      ensures forall i :: 0 <= i < |positionen| ==> fresh(positionen[i])
    {
      LoadFields(m, parse);
      var ps := BuildPositionen(ToList(Value(m, PositionenKey)), view, gen);
      positionen := ps;
    }

    method FillFromMap(m: VariantMap, parse: DateParser, gen: UuidSource)
      modifies this, gen
      ensures LoadedFrom(m, parse)
      ensures forall i :: 0 <= i < |positionen| ==> fresh(positionen[i])
    {
      Load(m, AppView, parse, gen);
    }

    method FillFromForeignMap(m: VariantMap, parse: DateParser, gen: UuidSource)
      modifies this, gen
      ensures LoadedFrom(m, parse)
      ensures forall i :: 0 <= i < |positionen| ==> fresh(positionen[i])
    {
      Load(m, ForeignView, parse, gen);
    }

    method FillFromCacheMap(m: VariantMap, parse: DateParser, gen: UuidSource)
      modifies this, gen
      ensures LoadedFrom(m, parse)
      ensures forall i :: 0 <= i < |positionen| ==> fresh(positionen[i])
    {
      Load(m, CacheView, parse, gen);
    }

    /** The map an export produces from the current state, with every line
        item's own full view. */
    function AsMap(format: DateFormatter): VariantMap
      reads this, positionen
    {
      AuftragMap(nr, datum, bemerkung, auftraggeber, tagsKeys, P.AsVariantList(positionen), format)
    }

    /** Writes the keyword keys back from the live keyword objects, when resolved
        or when objects exist but no keys are stored. */
    method ExportTagsKeys()
      modifies this
      ensures tagsKeys == old(Tags()).ExportedKeys(S.Uuids(old(tags)))
      ensures tags == old(tags) && tagsKeysResolved == old(tagsKeysResolved)
      ensures Attributes() == old(Attributes()) && Auftraggeber() == old(Auftraggeber()) && positionen == old(positionen)
    {
      if tagsKeysResolved || (|tagsKeys| == 0 && |tags| != 0) {
        tagsKeys := [];
        var i := 0;
        while i < |tags|
          invariant 0 <= i <= |tags| && |tagsKeys| == i
          invariant forall k :: 0 <= k < i ==> tagsKeys[k] == tags[k].uuid
          invariant tags == old(tags) && tagsKeysResolved == old(tagsKeysResolved)
          invariant Attributes() == old(Attributes()) && Auftraggeber() == old(Auftraggeber()) && positionen == old(positionen)
        {
          tagsKeys := tagsKeys + [tags[i].uuid];
          i := i + 1;
        }
      }
    }

    method ToMap(format: DateFormatter) returns (m: VariantMap)
      modifies this
      ensures tagsKeys == old(Tags()).ExportedKeys(S.Uuids(old(tags)))
      ensures tags == old(tags) && tagsKeysResolved == old(tagsKeysResolved)
      ensures Attributes() == old(Attributes()) && Auftraggeber() == old(Auftraggeber()) && positionen == old(positionen)
      ensures m == AsMap(format)
    {
      ExportTagsKeys();
      m := AsMap(format);
    }

    method ToForeignMap(format: DateFormatter) returns (m: VariantMap)
      modifies this
      ensures tagsKeys == old(Tags()).ExportedKeys(S.Uuids(old(tags)))
      ensures tags == old(tags) && tagsKeysResolved == old(tagsKeysResolved)
      ensures Attributes() == old(Attributes()) && Auftraggeber() == old(Auftraggeber()) && positionen == old(positionen)
      ensures m == AsMap(format)
    {
      ExportTagsKeys();
      m := AsMap(format);
    }

    /** There are no transient properties: the cache view is the full view. */
    method ToCacheMap(format: DateFormatter) returns (m: VariantMap)
      modifies this
      ensures tagsKeys == old(Tags()).ExportedKeys(S.Uuids(old(tags)))
      ensures tags == old(tags) && tagsKeysResolved == old(tagsKeysResolved)
      ensures Attributes() == old(Attributes()) && Auftraggeber() == old(Auftraggeber()) && positionen == old(positionen)
      ensures m == AsMap(format)
    {
      m := ToMap(format);
    }
  }

  /** The map view of an order: the customer key only when set, the date
      only when present, the keyword keys as a string list and the line
      items' list under positionen; nothing else. */
  function AuftragMap(nr: int, datum: Option<Date>, bemerkung: string, auftraggeber: int,
                      tagsKeys: seq<string>, items: seq<Variant>, format: DateFormatter): (m: VariantMap)
    ensures m.Keys == {TagsKey, NrKey, BemerkungKey, PositionenKey}
      + (if auftraggeber != -1 then {AuftraggeberKey} else {})
      + (if datum.Some? then {DatumKey} else {})
    ensures ToStringList(m[TagsKey]) == tagsKeys
    ensures ToInt(m[NrKey]) == nr && ToStr(m[BemerkungKey]) == bemerkung
    ensures auftraggeber != -1 ==> ToInt(m[AuftraggeberKey]) == auftraggeber
    ensures datum.Some? ==> ToStr(m[DatumKey]) == format(datum.value)
    ensures ToList(m[PositionenKey]) == items
  {
    var base := map[TagsKey := FromStringList(tagsKeys), NrKey := IntV(nr), BemerkungKey := StrV(bemerkung),
                     PositionenKey := ListV(items)];
    var withKey := if auftraggeber != -1 then base[AuftraggeberKey := IntV(auftraggeber)] else base;
    if datum.Some? then withKey[DatumKey := StrV(format(datum.value))] else withKey
  }

  /** Reading the map view back gives every attribute that went in: the
      date when the parser reads back what the formatter writes, and the
      unset customer key -1 as the default of an absent key. */
  lemma AuftragMapReadBack(nr: int, datum: Option<Date>, bemerkung: string, auftraggeber: int,
                           tagsKeys: seq<string>, items: seq<Variant>, format: DateFormatter, parse: DateParser)
    requires forall d :: parse(format(d)) == Some(d)
    ensures var m := AuftragMap(nr, datum, bemerkung, auftraggeber, tagsKeys, items, format);
      && ToInt(Value(m, NrKey)) == nr
      && (if DatumKey in m then parse(ToStr(m[DatumKey])) else None) == datum
      && ToStr(Value(m, BemerkungKey)) == bemerkung
      && (if AuftraggeberKey in m then ToInt(m[AuftraggeberKey]) else NoKey) == auftraggeber
      && ToStringList(Value(m, TagsKey)) == tagsKeys
      && ToList(Value(m, PositionenKey)) == items
  {
    var m := AuftragMap(nr, datum, bemerkung, auftraggeber, tagsKeys, items, format);
    if datum.Some? {
      assert parse(format(datum.value)) == Some(datum.value);
    }
  }

  /** An order filled from a map view holds the attributes that went into
      it, a keyword array awaiting its keys and one line item per item map. */
  lemma FilledFromMapView(b: Auftrag, m: VariantMap, nr: int, datum: Option<Date>, bemerkung: string, auftraggeber: int,
                          tagsKeys: seq<string>, items: seq<Variant>, format: DateFormatter, parse: DateParser)
    requires forall d :: parse(format(d)) == Some(d)
    requires m == AuftragMap(nr, datum, bemerkung, auftraggeber, tagsKeys, items, format) && FilledFresh(b, m, parse)
    ensures b.Attributes() == (nr, datum, bemerkung) && b.auftraggeber == auftraggeber
    ensures b.tagsKeys == tagsKeys && (b.tagsKeysResolved <==> |tagsKeys| == 0) && b.tags == []
    ensures PositionenFilledFrom(b, items)
  {
    AuftragMapReadBack(nr, datum, bemerkung, auftraggeber, tagsKeys, items, format, parse);
  }

  /** The line items of an order filled from the map view of an order with
      the line items src name it as their head and carry the keys,
      descriptions and prices of src, in order. */
  lemma PositionenFromMapView(b: Auftrag, src: seq<P.Position>)
    requires forall p :: p in src ==> p.IsValid()
    requires PositionenFilledFrom(b, P.AsVariantList(src))
    ensures |b.positionen| == |src|
    ensures forall i :: 0 <= i < |src| ==>
      b.positionen[i].uuid == src[i].uuid && b.positionen[i].bezeichnung == src[i].bezeichnung
      && b.positionen[i].preis == src[i].preis && b.positionen[i].parent == b
  {
    P.FillFromListRestores(src, b.positionen, P.AsVariantList(src));
  }

  /** An order filled from the map view of an order a holds a's attributes,
      customer key and keyword keys, and line items that name it as their
      head and carry the keys, descriptions and prices of a's line items. */
  lemma FilledFromOrderView(a: Auftrag, b: Auftrag, m: VariantMap, format: DateFormatter, parse: DateParser)
    requires forall d :: parse(format(d)) == Some(d)
    requires forall p :: p in a.positionen ==> p.IsValid()
    requires m == a.AsMap(format) && FilledFresh(b, m, parse)
    ensures b.Attributes() == a.Attributes() && b.auftraggeber == a.auftraggeber
    ensures b.tagsKeys == a.tagsKeys && (b.tagsKeysResolved <==> |a.tagsKeys| == 0) && b.tags == []
    ensures |b.positionen| == |a.positionen|
    ensures forall i :: 0 <= i < |a.positionen| ==>
      b.positionen[i].uuid == a.positionen[i].uuid && b.positionen[i].bezeichnung == a.positionen[i].bezeichnung
      && b.positionen[i].preis == a.positionen[i].preis && AuftragsKopf(b.positionen[i]) == b
  {
    FilledFromMapView(b, m, a.nr, a.datum, a.bemerkung, a.auftraggeber, a.tagsKeys, P.AsVariantList(a.positionen), format, parse);
    PositionenFromMapView(b, a.positionen);
  }

  /** The line item fill of the given view. */
  method FillPosition(p: P.Position, m: VariantMap, view: View, gen: UuidSource)
    modifies p, gen
    ensures P.FilledFrom(p, m) && p.parent == old(p.parent)
  {
    match view {
      case AppView => p.FillFromMap(m, gen);
      case ForeignView => p.FillFromForeignMap(m, gen);
      case CacheView => p.FillFromCacheMap(m, gen);
    }
  }

  /** What a fill from m leaves in a default-constructed order: LoadedFrom
      with the constructor's state as the earlier one. */
  predicate FilledFresh(a: Auftrag, m: VariantMap, parse: DateParser)
    reads a, a.positionen
  {
    && a.nr == ToInt(Value(m, NrKey))
    && a.datum == (if DatumKey in m then parse(ToStr(m[DatumKey])) else None)
    && a.bemerkung == ToStr(Value(m, BemerkungKey))
    && a.Auftraggeber() == ScalarRef(if AuftraggeberKey in m then ToInt(m[AuftraggeberKey]) else NoKey, false, None)
    && a.Tags() == Loaded(ToStringList(Value(m, TagsKey)))
    && PositionenFilledFrom(a, ToList(Value(m, PositionenKey)))
  }

  /** The line items of a filled order: one per item map, in order, each
      naming the order as its head. */
  predicate PositionenFilledFrom(a: Auftrag, items: seq<Variant>)
    reads a, a.positionen
  {
    && |a.positionen| == |items|
    && forall i :: 0 <= i < |a.positionen| ==>
         a.positionen[i].parent == a && P.FilledFrom(a.positionen[i], Qt.ToMap(items[i]))
  }

  /** A default-constructed order filled from m through the fill of the
      given view. */
  method NewFilled(m: VariantMap, view: View, parse: DateParser, gen: UuidSource) returns (a: Auftrag)
    modifies gen
    ensures fresh(a) && FilledFresh(a, m, parse)
    ensures forall i :: 0 <= i < |a.positionen| ==> fresh(a.positionen[i])
  {
    a := new Auftrag();
    match view {
      case AppView => a.FillFromMap(m, parse, gen);
      case ForeignView => a.FillFromForeignMap(m, parse, gen);
      case CacheView => a.FillFromCacheMap(m, parse, gen);
    }
  }

  /** The back-reference of a line item: its parent when that is an order. */
  function AuftragsKopf(p: P.Position): (a: Auftrag?)
    reads p
    ensures a != null ==> p.parent == a
    ensures p.parent is Auftrag ==> a != null
  {
    if p.parent is Auftrag then p.parent as Auftrag else null
  }

  /** Every line item an order builds or creates names that order as its head. */
  lemma OwnedPositionHead(a: Auftrag, p: P.Position)
    requires p.parent == a
    ensures AuftragsKopf(p) == a
  {
  }

  /** Saving an order to the cache view and filling a new order from it
      restores its attributes, its customer key, its exported keyword keys
      and, for keyed line items, every line item's key, description and price.
      The date survives because the parser reads back what the formatter writes. */
  method CacheRoundTrip(a: Auftrag, format: DateFormatter, parse: DateParser, gen: UuidSource)
    returns (b: Auftrag)
    requires forall d :: parse(format(d)) == Some(d)
    requires forall p :: p in a.positionen ==> p.IsValid()
    modifies a, gen
    ensures fresh(b)
    ensures b.Attributes() == a.Attributes() && b.auftraggeber == a.auftraggeber
    ensures b.tagsKeys == a.tagsKeys && (b.tagsKeysResolved <==> |a.tagsKeys| == 0) && b.tags == []
    ensures |b.positionen| == |a.positionen|
    ensures forall i :: 0 <= i < |a.positionen| ==>
      b.positionen[i].uuid == a.positionen[i].uuid && b.positionen[i].bezeichnung == a.positionen[i].bezeichnung
      && b.positionen[i].preis == a.positionen[i].preis && AuftragsKopf(b.positionen[i]) == b
  {
    var m := a.ToCacheMap(format);
    b := FillFromOrderView(a, m, CacheView, format, parse, gen);
  }

  /** A new order filled, through the fill of the given view, from the map
      view of order a: it holds what FilledFromOrderView states. */
  method FillFromOrderView(a: Auftrag, m: VariantMap, view: View, format: DateFormatter, parse: DateParser, gen: UuidSource)
    returns (b: Auftrag)
    requires forall d :: parse(format(d)) == Some(d)
    requires forall p :: p in a.positionen ==> p.IsValid()
    requires m == a.AsMap(format)
    modifies gen
    ensures fresh(b)
    ensures b.Attributes() == a.Attributes() && b.auftraggeber == a.auftraggeber
    ensures b.tagsKeys == a.tagsKeys && (b.tagsKeysResolved <==> |a.tagsKeys| == 0) && b.tags == []
    ensures |b.positionen| == |a.positionen|
    ensures forall i :: 0 <= i < |a.positionen| ==>
      b.positionen[i].uuid == a.positionen[i].uuid && b.positionen[i].bezeichnung == a.positionen[i].bezeichnung
      && b.positionen[i].preis == a.positionen[i].preis && AuftragsKopf(b.positionen[i]) == b
  {
    b := NewFilled(m, view, parse, gen);
    FilledFromOrderView(a, b, m, format, parse);
  }

}
